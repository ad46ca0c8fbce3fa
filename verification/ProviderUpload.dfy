/** Providers: secrets are stripped, then every uuid, and the secrets are patched into what comes back. */
module ProviderUpload {
  import opened Options
  import opened JsonTree
  import opened SecretSites
  import opened SecretWalk
  import opened SecretRoundTrip
  import opened SecretPlaces
  import opened SecretPayload
  import opened SecretLaw
  import opened SecretEntities
  import opened StripPasses
  import opened SecretStripper
  import opened SecretPatcher
  import opened UuidStrip
  import opened SecretInventory

  // ----- no site is filed through a `uuid` key

  ghost predicate Unmarked(sites: seq<Site>) {
    forall s <- sites :: NoUuidStep(s.path) && NoUuidStep(s.filed)
  }

  lemma VariableUnmarked(variable: Json, p: Path, f: Path, known: Known)
    requires NoUuidStep(p) && NoUuidStep(f)
    ensures Unmarked(VariableSites(variable, p, f, known))
  {
    hide IsModified, Lookup;
    forall s <- OptionSites(variable, p, f) ensures NoUuidStep(s.path) && NoUuidStep(s.filed) {
      assert s.filed == f + (OPTION_AUTH + BASIC_PASSWORD);
    }
  }

  lemma {:induction false} ListUnmarked(variables: seq<Json>, p: Path, f: Path, known: Known)
    requires NoUuidStep(p) && NoUuidStep(f)
    ensures Unmarked(ListSites(variables, p, f, known))
  {
    hide VariableSites, Based;
    if variables != [] {
      var n := |variables| - 1;
      ListUnmarked(variables[..n], p, f, known);
      VariableUnmarked(variables[n], p + [Idx(n)], f + [Idx(n)], known);
    }
  }

  lemma EntityUnmarked(obj: Json, p: Path, f: Path, decompiled: Decompiled, field: string, context: string)
    requires NoUuidStep(p) && NoUuidStep(f) && field != UUID
    ensures Unmarked(EntitySites(obj, p, f, decompiled, field, context))
  {
    hide ListSites, EntityContext;
    ListUnmarked(Elements(obj, field), p + [Key(field)], f + [Key(field)],
                 SecretsOf(decompiled, EntityContext(obj, field, context)));
  }

  lemma ActionTaskUnmarked(task: Json, p: Path, decompiled: Decompiled, context: string)
    requires NoUuidStep(p)
    ensures Unmarked(ActionTaskSites(task, p, decompiled, context))
  {
    hide EntitySites, Lookup, TaskAuthFits;
    var here := context + "." + Text(task, "name");
    forall s <- TaskAuthSites(task, p, decompiled, here) ensures NoUuidStep(s.path) && NoUuidStep(s.filed) {
      assert s.path == p + (TASK_AUTH + BASIC_PASSWORD);
    }
    EntityUnmarked(OrNull(Get(task, "attrs")), p + [ATTRS], p + [ATTRS], decompiled, "headers", here + ".headers");
  }

  lemma {:induction false} ActionTaskListUnmarked(tasks: seq<Json>, p: Path, decompiled: Decompiled, context: string)
    requires NoUuidStep(p)
    ensures Unmarked(ActionTaskListSites(tasks, p, decompiled, context))
  {
    hide ActionTaskSites, Based;
    if tasks != [] {
      var n := |tasks| - 1;
      ActionTaskListUnmarked(tasks[..n], p, decompiled, context);
      ActionTaskUnmarked(tasks[n], p + [Idx(n)], decompiled, context);
    }
  }

  lemma ActionRunbookUnmarked(runbook: Json, p: Path, decompiled: Decompiled, context: string)
    requires NoUuidStep(p)
    ensures Unmarked(ActionRunbookSites(runbook, p, decompiled, context))
  {
    hide EntitySites, ActionTaskListSites, Based, Iterable;
    EntityUnmarked(runbook, p, p, decompiled, "variable_list", context);
    ActionTaskListUnmarked(Elements(runbook, TASKS.key), p + [TASKS], decompiled,
                           context + "." + Text(runbook, "name") + ".task_definition_list");
  }

  lemma {:induction false} ActionListUnmarked(actions: seq<Json>, p: Path, decompiled: Decompiled, context: string)
    requires NoUuidStep(p)
    ensures Unmarked(ActionListSites(actions, p, decompiled, context))
  {
    hide ActionRunbookSites, Based, IsText;
    if actions != [] {
      var n := |actions| - 1;
      ActionListUnmarked(actions[..n], p, decompiled, context);
      ActionRunbookUnmarked(RunbookOf(actions[n]), p + [Idx(n)] + [Key("runbook")], decompiled,
                            context + "." + Text(actions[n], "name") + ".runbook");
    }
  }

  lemma ActionUnmarked(obj: Json, p: Path, decompiled: Decompiled, context: string)
    requires NoUuidStep(p)
    ensures Unmarked(ActionSites(obj, p, decompiled, context))
  {
    hide ActionListSites, Based, Listable;
    var actions := Elements(obj, "action_list");
    ActionListUnmarked(actions[..Walked(actions)], p + [Key("action_list")], decompiled, context);
  }

  lemma AuthUnmarked(obj: Json, p: Path, f: Path, decompiled: Decompiled, context: string)
    requires NoUuidStep(p) && NoUuidStep(f)
    ensures Unmarked(AuthSites(obj, p, f, decompiled, context))
  {
    hide Lookup;
  }

  lemma RunbookTaskUnmarked(task: Json, p: Path, i: nat, decompiled: Decompiled, context: string)
    requires NoUuidStep(p)
    ensures Unmarked(RunbookTaskSites(task, p, i, decompiled, context))
  {
    hide EntitySites, AuthSites, Based, HttpTaskFits;
    var attrs := OrNull(Get(task, "attrs"));
    var at := p + [TASKS, Idx(i), ATTRS];
    var filed := TaskFile(attrs, p, i);
    var here := context + "." + Text(task, "name");
    EntityUnmarked(attrs, at, at, decompiled, "inarg_list", "");
    EntityUnmarked(attrs, at, filed, decompiled, "headers", here + ".headers");
    AuthUnmarked(attrs, at, filed, decompiled, here);
  }

  lemma {:induction false} RunbookListUnmarked(tasks: seq<Json>, p: Path, decompiled: Decompiled, context: string)
    requires NoUuidStep(p)
    ensures Unmarked(RunbookListSites(tasks, p, decompiled, context))
  {
    hide RunbookTaskSites;
    if tasks != [] {
      var n := |tasks| - 1;
      RunbookListUnmarked(tasks[..n], p, decompiled, context);
      RunbookTaskUnmarked(tasks[n], p, n, decompiled, context);
    }
  }

  lemma AllUnmarked(obj: Json, p: Path, decompiled: Decompiled, head: string)
    requires NoUuidStep(p)
    ensures Unmarked(AllSites(obj, p, decompiled, head))
  {
    hide EntitySites, ActionSites, RunbookListSites, AuthSites, Based, IsText, Iterable;
    var name := Text(obj, "name");
    EntityUnmarked(obj, p, p, decompiled, "variable_list", head);
    ActionUnmarked(obj, p, decompiled, head + "." + name + ".action_list");
    RunbookListUnmarked(Elements(obj, TASKS.key), p, decompiled, head + "." + name + ".task_definition_list");
    AuthUnmarked(obj, p, p, decompiled, head);
  }

  lemma {:induction false} ResourceTypesUnmarked(rows: seq<Json>, decompiled: Decompiled)
    ensures Unmarked(ResourceTypeListSites(rows, decompiled))
  {
    hide AllSites, EntitySites, Based;
    if rows != [] {
      var n := |rows| - 1;
      var p := [Key("resource_type_list"), Idx(n)];
      ResourceTypesUnmarked(rows[..n], decompiled);
      AllUnmarked(rows[n], p, decompiled, "resource_type_list");
      EntityUnmarked(rows[n], p, p, decompiled, "schema_list", "resource_type_list");
    }
  }

  /** Every path recorded for a provider can be looked up without passing a `uuid` key. */
  lemma ProviderUnmarked(j: Json, decompiled: Decompiled)
    ensures Unmarked(ProviderSites(j, decompiled))
  {
    hide EntitySites, ResourceTypeListSites, ActionSites, Based, Listable, ObjOrAbsent;
    var e, t := ENDPOINT_SCHEMA, ACCOUNT_DATA;
    ResourceTypesUnmarked(Elements(j, "resource_type_list"), decompiled);
    EntityUnmarked(j, [], [], decompiled, "variable_list", "variable_list");
    EntityUnmarked(j, [], [], decompiled, "auth_schema_list", "auth_schema_list");
    EntityUnmarked(Node(j, e), e, e, decompiled, "variable_list", "endpoint_schema_list");
    EntityUnmarked(Node(j, t), t, t, decompiled, "variable_list", "test_account_variable_list");
    ActionUnmarked(j, [], decompiled, "action_list");
  }

  // ----- the upload

  /** What is sent back to the server after strip secrets, strip uuids, echo, patch secrets. */
  function UploadedProvider(j: Json, decompiled: Decompiled): Json {
    var holders, sites := Holders(j, decompiled, false), ProviderSites(j, decompiled);
    PatchPayload(StripUuids(StripPayload(j, holders, sites)), SecretMap(holders), Records(sites), Kept(sites))
  }

  /** The payload the provider is first imported from, without the secrets taken out and without uuids. */
  function ImportedProvider(j: Json, decompiled: Decompiled): Option<Json> {
    var holders, sites := Holders(j, decompiled, false), ProviderSites(j, decompiled);
    if !CredentialsStrippable(j) || !Completes(sites) then None else Some(StripUuids(StripPayload(j, holders, sites)))
  }

  /** The same with the errors the passes raise; None when the client stops. */
  function ProviderOutcome(j: Json, decompiled: Decompiled): Option<Json> {
    var holders, sites := Holders(j, decompiled, false), ProviderSites(j, decompiled);
    if !CredentialsStrippable(j) || !Completes(sites) then None
    else if !PatchRuns(StripUuids(StripPayload(j, holders, sites)), SecretMap(holders), Records(sites), Kept(sites))
        then None
    else Some(UploadedProvider(j, decompiled))
  }

  /** Everything the client reads is there, from the strip to the patch, and all it patches can be walked to. */
  predicate ProviderFits(j: Json, decompiled: Decompiled) {
    && CredentialsStrippable(j) && Completes(ProviderSites(j, decompiled))
    && NamesPatchable(StripUuids(j)) && AllWalk(StripUuids(j), ProviderSites(j, decompiled))
  }

  /** The uuid-free payload as strip and patch by name leave it. */
  function ProviderBase(j: Json, decompiled: Decompiled): Json {
    var holders := Holders(j, decompiled, false);
    Apply(StripUuids(j), HolderNet(holders, SecretMap(holders)))
  }

  lemma PlaceholdersPlain()
    ensures forall k: Kind :: StripUuids(Placeholder(k)) == Placeholder(k)
    ensures StripUuids(UNSET_REFERENCE) == UNSET_REFERENCE
    ensures StripUuids(CREDENTIAL_PLACEHOLDER) == CREDENTIAL_PLACEHOLDER
    ensures StripUuids(AUTH_PLACEHOLDER) == AUTH_PLACEHOLDER
  {
    hide StripUuids;
    PlainFlags();
    PlainMember("attrs", UNSET_REFERENCE);
    PlainMember("attrs", UNMODIFIED);
    PlainOption();
    PlainAuth();
    assert StripUuids(Null) == Null by { PlainNull(); }
  }

  lemma PlainNull()
    ensures StripUuids(Null) == Null
  {
  }

  lemma PlainOption()
    ensures StripUuids(Placeholder(OptionPassword)) == Placeholder(OptionPassword)
  {
    PlainFlags();
    assert StripUuids(Placeholder(OptionPassword)).fields == Placeholder(OptionPassword).fields;
  }

  lemma PlainAuth()
    ensures StripUuids(AUTH_PLACEHOLDER) == AUTH_PLACEHOLDER
  {
    var inner := Obj(map["is_secret_modified" := Bool(false), "value" := Null]);
    assert StripUuids(inner).fields == inner.fields;
    PlainMember("attrs", inner);
  }

  lemma PlainFlags()
    ensures StripUuids(UNSET_REFERENCE) == UNSET_REFERENCE && StripUuids(UNMODIFIED) == UNMODIFIED
  {
    assert StripUuids(UNSET_REFERENCE).fields == UNSET_REFERENCE.fields;
    assert StripUuids(UNMODIFIED).fields == UNMODIFIED.fields;
  }

  lemma {:induction false} PlainMember(k: string, v: Json)
    requires k != UUID && StripUuids(v) == v
    ensures StripUuids(Obj(map[k := v])) == Obj(map[k := v])
  {
    assert StripUuids(Obj(map[k := v])).fields == map[k := v];
  }

  lemma StripUnmarked(j: Json, decompiled: Decompiled)
    ensures EditsUnmarked(HolderStrip(Holders(j, decompiled, false)) + StripEdits(ProviderSites(j, decompiled)))
  {
    hide ProviderSites, Holders, Placeholder;
    PlaceholdersPlain();
    ProviderUnmarked(j, decompiled);
    HolderEditsUnmarked(j, decompiled);
    var sites := ProviderSites(j, decompiled);
    forall e <- StripEdits(sites) ensures NoUuidStep(e.path) && StripOption(e.value) == e.value {
      var s := EditOrigin(sites, e);
    }
  }

  lemma HolderEditsUnmarked(j: Json, decompiled: Decompiled)
    ensures EditsUnmarked(HolderStrip(Holders(j, decompiled, false)))
  {
    hide IsModified;
    PlaceholdersPlain();
    var credentials := Elements(j, CREDENTIALS);
    var holders := CredentialHolders(credentials, SecretsOf(decompiled, CREDENTIALS));
    var auth := AuthHolders(j, SecretsOf(decompiled, "authentication"), false);
    forall h: Holder | h in holders + auth ensures NoUuidStep(h.path) && StripUuids(h.placeholder) == h.placeholder {
    }
    HolderStripUnmarked(holders + auth);
  }

  lemma {:induction false} HolderStripUnmarked(holders: seq<Holder>)
    requires forall h <- holders :: NoUuidStep(h.path) && StripUuids(h.placeholder) == h.placeholder
    ensures EditsUnmarked(HolderStrip(holders))
  {
    if holders != [] {
      var n := |holders| - 1;
      assert holders[n] in holders;
      HolderStripUnmarked(holders[..n]);
    }
  }

  /** Names and usernames are strings, so the same holders are found without uuids. */
  lemma TargetsWithoutUuids(j: Json, decompiled: Decompiled, strips: bool)
    ensures SameTargets(Holders(StripUuids(j), map[], false), Holders(j, decompiled, strips))
  {
    hide IsModified, StripUuids, Text, Get, CredentialHolders, AuthHolders, Elements;
    TextKept(j, "authentication", "username");
    CredentialNamesKept(j);
    NamesMakeTargets(Elements(StripUuids(j), CREDENTIALS), Elements(j, CREDENTIALS), SecretsOf(map[], CREDENTIALS),
                     SecretsOf(decompiled, CREDENTIALS));
    AuthTargets(StripUuids(j), SecretsOf(map[], "authentication"), j, SecretsOf(decompiled, "authentication"), strips);
    JoinTargets(CredentialHolders(Elements(StripUuids(j), CREDENTIALS), SecretsOf(map[], CREDENTIALS)),
                AuthHolders(StripUuids(j), SecretsOf(map[], "authentication"), false),
                CredentialHolders(Elements(j, CREDENTIALS), SecretsOf(decompiled, CREDENTIALS)),
                AuthHolders(j, SecretsOf(decompiled, "authentication"), strips));
  }

  lemma CredentialNamesKept(j: Json)
    ensures var a, b := Elements(StripUuids(j), CREDENTIALS), Elements(j, CREDENTIALS);
      |a| == |b| && forall i | 0 <= i < |a| :: Text(a[i], "name") == Text(b[i], "name")
  {
    var a, b := Elements(StripUuids(j), CREDENTIALS), Elements(j, CREDENTIALS);
    ElementsKept(j, CREDENTIALS);
    forall i | 0 <= i < |a| ensures Text(a[i], "name") == Text(b[i], "name") {
      ChildCommutes(b[i], Key("name"));
    }
  }

  lemma ElementsKept(j: Json, k: string)
    requires k != UUID
    ensures var a, b := Elements(StripUuids(j), k), Elements(j, k);
      |a| == |b| && forall i | 0 <= i < |a| :: a[i] == StripUuids(b[i])
  {
    ChildCommutes(j, Key(k));
  }

  lemma TextKept(j: Json, o: string, k: string)
    requires o != UUID && k != UUID
    ensures var a, b := OrNull(Get(StripUuids(j), o)), OrNull(Get(j, o));
      a.Obj? == b.Obj? && Text(a, k) == Text(b, k)
  {
    ChildCommutes(j, Key(o));
    ChildCommutes(OrNull(Get(j, o)), Key(k));
  }

  lemma TargetsTransitive(a: seq<Holder>, b: seq<Holder>, c: seq<Holder>)
    requires SameTargets(a, b) && SameTargets(b, c)
    ensures SameTargets(a, c)
  {
  }

  /** Everything done by name can be done first, on the uuid-free payload. */
  lemma ProviderHoldersFirst(j: Json, decompiled: Decompiled)
    requires forall c <- Elements(j, CREDENTIALS) :: c.Obj?
    ensures UploadedProvider(j, decompiled) == StripThenPatch(ProviderBase(j, decompiled), ProviderSites(j, decompiled))
  {
    hide Holders, ProviderSites, SecretMap, HolderNet, HolderStrip;
    var holders, sites := Holders(j, decompiled, false), ProviderSites(j, decompiled);
    var m, u := SecretMap(holders), StripUuids(j);
    var A, S, P := HolderStrip(holders), StripEdits(sites), HolderPatch(holders, m);
    ProviderWellPlaced(j, decompiled);
    StripUnmarked(j, decompiled);
    ApplySplit(j, A, S);
    ApplyCommutes(j, A + S);
    ApplySplit(u, A, S);
    StripIsHarmless(j, decompiled, false, sites);
    PayloadHoldersPlaced(j, decompiled, false);
    TargetsKept(u, A + S, map[], false);
    TargetsWithoutUuids(j, decompiled, false);
    TargetsTransitive(Holders(Apply(u, A + S), map[], false), Holders(u, map[], false), holders);
    SamePatch(Holders(Apply(u, A + S), map[], false), holders, m);
    PatchMissesSites(holders, m, sites);
    ApplyCommute(Apply(u, A), S, P);
    HolderRegroup(u, holders, m);
  }

  lemma PatchMissesSites(holders: seq<Holder>, m: map<string, Json>, sites: seq<Site>)
    requires SitesOff(sites) && forall h <- holders :: HolderPlace(h.path)
    ensures Separate(StripEdits(sites), HolderPatch(holders, m))
  {
    forall e <- HolderPatch(holders, m) ensures Avoid(StripEdits(sites), e.path) {
      HolderEdits(holders, m);
      assert e in HolderStrip(holders) + HolderPatch(holders, m);
      forall s <- sites ensures Diverge(s.path, e.path) {
        OffDiverges(s.path, e.path);
      }
      EditsMiss(sites, e.path);
    }
  }

  /** The sites of a provider are found in the uuid-free payload too, whatever their values are there. */
  lemma SitesWithoutUuids(j: Json, decompiled: Decompiled)
    requires Completes(ProviderSites(j, decompiled))
    ensures Arranged(StripUuids(j), ProviderSites(j, decompiled)) && SitesOff(ProviderSites(j, decompiled))
  {
    hide ProviderSites, Completes;
    var sites := ProviderSites(j, decompiled);
    ProviderWellPlaced(j, decompiled);
    ProviderUnmarked(j, decompiled);
    forall s <- sites ensures Located(StripUuids(j), s) {
      LookupCommutes(j, s.path);
      ChildCommutes(Lookup(j, s.path).value, VALUE);
    }
  }

  /** A stripped secret comes back in the uuid-free payload if it would in the payload and has no uuids itself. */
  lemma ProviderSiteFits(j: Json, decompiled: Decompiled, s: Site)
    requires Completes(ProviderSites(j, decompiled)) && s in ProviderSites(j, decompiled)
    ensures Restorable(StripUuids(j), s) <==>
      && s.filed == s.path && s.value.Some? && StripOption(s.value) == s.value
      && (s.kind == Variable || (Node(j, s.path).Obj? && Node(j, s.path).fields.Keys <= {"value", "attrs", UUID}))
  {
    hide ProviderSites, Completes;
    ProviderWellPlaced(j, decompiled);
    ProviderUnmarked(j, decompiled);
    LookupCommutes(j, s.path);
    hide Lookup, StripUuids, WellPlaced, Unmarked;
    MembersWithoutUuids(Lookup(j, s.path).value);
  }

  lemma MembersWithoutUuids(c: Json)
    requires c.Obj?
    ensures StripUuids(c).Obj? && StripUuids(c).fields.Keys == c.fields.Keys - {UUID}
    ensures Get(StripUuids(c), "value") == StripOption(Get(c, "value"))
  {
    ChildCommutes(c, VALUE);
  }

  /** The holders with their secrets as they are in the uuid-free payload. */
  function WithoutUuids(holders: seq<Holder>): (plain: seq<Holder>)
    ensures |plain| == |holders|
    ensures forall i | 0 <= i < |holders| :: plain[i] == holders[i].(secret := StripOption(holders[i].secret))
  {
    if holders == [] then []
    else
      var h := holders[|holders|-1];
      WithoutUuids(holders[..|holders|-1]) + [h.(secret := StripOption(h.secret))]
  }

  lemma {:induction false} SameNet(holders: seq<Holder>, m: map<string, Json>)
    ensures HolderNet(WithoutUuids(holders), m) == HolderNet(holders, m)
  {
    hide OneNet;
    if holders != [] {
      var n := |holders| - 1;
      assert WithoutUuids(holders)[..n] == WithoutUuids(holders[..n]);
      SameNet(holders[..n], m);
      NetIgnoresSecret(holders[n], StripOption(holders[n].secret), m);
    }
  }

  /** They are in their places there. */
  lemma HoldersWithoutUuids(j: Json, decompiled: Decompiled)
    requires forall c <- Elements(j, CREDENTIALS) :: c.Obj?
    ensures HoldersPlaced(StripUuids(j), WithoutUuids(Holders(j, decompiled, false)))
    ensures forall h <- WithoutUuids(Holders(j, decompiled, false)) :: HolderPlace(h.path)
  {
    hide Holders, StripUuids, HolderPlace, Lookup, Diverge;
    var holders := Holders(j, decompiled, false);
    var plain := WithoutUuids(holders);
    PayloadHoldersPlaced(j, decompiled, false);
    forall i | 0 <= i < |plain| ensures PlacedAt(StripUuids(j), plain[i]) && HolderPlace(plain[i].path) {
      assert holders[i] in holders;
      OneWithoutUuids(j, decompiled, holders[i]);
    }
    hide PlacedAt;
    PlacedApart(StripUuids(j), plain);
  }

  /** The holder's secret is a member of an object. */
  predicate PlacedAt(u: Json, h: Holder) {
    && h.path != [] && h.path[|h.path|-1].Key? && h.secret == Lookup(u, h.path)
    && Lookup(u, h.path[..|h.path|-1]).Some? && Lookup(u, h.path[..|h.path|-1]).value.Obj?
  }

  lemma PlacedApart(u: Json, holders: seq<Holder>)
    requires forall i, k | 0 <= i < |holders| && 0 <= k < |holders|
             && i != k :: Diverge(holders[i].path, holders[k].path)
    requires forall i | 0 <= i < |holders| :: PlacedAt(u, holders[i])
    ensures HoldersPlaced(u, holders)
  {
    hide Lookup, Diverge;
  }

  lemma {:induction false} OneWithoutUuids(j: Json, decompiled: Decompiled, h: Holder)
    requires h in Holders(j, decompiled, false) && h.secret == Lookup(j, h.path)
    requires forall c <- Elements(j, CREDENTIALS) :: c.Obj?
    ensures PlacedAt(StripUuids(j), h.(secret := StripOption(h.secret)))
  {
    hide Holders, StripUuids, Lookup;
    ParentWithoutUuids(j, decompiled, h);
    WholePathUnmarked(j, decompiled, h);
    LookupCommutes(j, h.path);
  }

  /** Each secret that is put back by name is the one its place holds without uuids. */
  predicate AnsweredPlainly(holders: seq<Holder>, secrets: map<string, Json>) {
    forall h <- holders :: h.receives && h.name in secrets ==> Some(secrets[h.name]) == StripOption(h.secret)
  }

  lemma AnsweredWithoutUuids(j: Json, decompiled: Decompiled)
    ensures var holders := Holders(j, decompiled, false);
      Answered(WithoutUuids(holders), SecretMap(holders)) <==> AnsweredPlainly(holders, SecretMap(holders))
  {
    hide Holders, SecretMap, StripUuids;
    var holders := Holders(j, decompiled, false);
    var plain, m := WithoutUuids(holders), SecretMap(holders);
    forall i | 0 <= i < |holders| ensures holders[i].stripped ==> holders[i].receives && holders[i].name in m {
      assert holders[i] in holders;
      if holders[i].stripped {
        OnlyCredentialsStripped(j, decompiled, holders[i]);
        SecretMapOrigin(holders, holders[i].name);
      }
    }
    assert forall i | 0 <= i < |holders| :: plain[i] in plain && holders[i] in holders;
  }

  lemma OnlyCredentialsStripped(j: Json, decompiled: Decompiled, h: Holder)
    requires h in Holders(j, decompiled, false) && h.stripped
    ensures h.receives
  {
    hide IsModified;
  }

  /** Without uuids in secrets, that is so exactly when no credentials clash. */
  lemma UnclashingWhenPlain(j: Json, decompiled: Decompiled)
    requires forall h <- Holders(j, decompiled, false) :: StripOption(h.secret) == h.secret
    ensures var holders := Holders(j, decompiled, false);
      AnsweredPlainly(holders, SecretMap(holders)) <==> Unclashing(holders)
  {
    hide SecretMap, Unclashing, Holders, StripUuids, Answered;
    var holders := Holders(j, decompiled, false);
    AnsweredWithoutUuids(j, decompiled);
    assert WithoutUuids(holders) == holders by {
      forall i | 0 <= i < |holders| ensures WithoutUuids(holders)[i] == holders[i] {
        assert holders[i] in holders;
      }
    }
    assert CredentialsFirst(holders) by {
      CredentialsReceive(j, decompiled);
    }
    OwnMapAnswers(holders);
  }

  lemma CredentialsReceive(j: Json, decompiled: Decompiled)
    ensures CredentialsFirst(Holders(j, decompiled, false))
  {
    hide IsModified;
  }

  lemma WholePathUnmarked(j: Json, decompiled: Decompiled, h: Holder)
    requires h in Holders(j, decompiled, false)
    ensures NoUuidStep(h.path)
  {
    hide IsModified;
  }

  /** Stripping secrets and uuids, seen as a strip of secrets from the uuid-free payload. */
  lemma StrippedWithoutUuids(j: Json, decompiled: Decompiled)
    ensures var holders, sites := Holders(j, decompiled, false), ProviderSites(j, decompiled);
      && StripUuids(StripPayload(j, holders, sites)) == StripPayload(StripUuids(j), holders, sites)
      && NamesPatchable(StripPayload(StripUuids(j), holders, sites)) == NamesPatchable(StripUuids(j))
  {
    hide Holders, ProviderSites, HolderStrip, StripEdits, NamesPatchable, StripUuids;
    var holders, sites := Holders(j, decompiled, false), ProviderSites(j, decompiled);
    ProviderSitesOff(j, decompiled);
    StripUnmarked(j, decompiled);
    ApplySplit(j, HolderStrip(holders), StripEdits(sites));
    ApplySplit(StripUuids(j), HolderStrip(holders), StripEdits(sites));
    ApplyCommutes(j, HolderStrip(holders) + StripEdits(sites));
    StripIsHarmless(j, decompiled, false, sites);
    PatchableKept(StripUuids(j), HolderStrip(holders) + StripEdits(sites));
  }

  /** The patch raises an error on the stripped, uuid-free payload exactly when it would on the uuid-free payload. */
  lemma ProviderRuns(j: Json, decompiled: Decompiled)
    requires Completes(ProviderSites(j, decompiled))
    ensures var holders, sites := Holders(j, decompiled, false), ProviderSites(j, decompiled);
      PatchRuns(StripUuids(StripPayload(j, holders, sites)), SecretMap(holders), Records(sites), Kept(sites))
      <==> NamesPatchable(StripUuids(j)) && AllWalk(StripUuids(j), sites)
  {
    hide Holders, ProviderSites, StripPayload, StripUuids, NamesPatchable, AllWalk, KeptWalk, RecordsWalk, SecretMap,
         Records, Kept, Arranged;
    StrippedWithoutUuids(j, decompiled);
    SitesWithoutUuids(j, decompiled);
    HoldersHavePlaces(j, decompiled, false);
    WalksExactly(StripUuids(j), Holders(j, decompiled, false), ProviderSites(j, decompiled),
                 SecretMap(Holders(j, decompiled, false)));
  }

  /**
   For every provider: the client sends it back exactly when all it reads is there and all it patches
   can be walked to; and what it sends is the uuid-free payload, with only `attrs` of secrets set,
   exactly when moreover each secret put back by name is the one its place holds without uuids, and
   every secret found by path fits there.
   */
  lemma ProviderLaw(j: Json, decompiled: Decompiled)
    ensures var sites, outcome := ProviderSites(j, decompiled), ProviderOutcome(j, decompiled);
      var holders := Holders(j, decompiled, false);
      && (outcome.Some? <==> ProviderFits(j, decompiled))
      && (outcome == Some(Marked(StripUuids(j), sites)) <==>
            && ProviderFits(j, decompiled) && AnsweredPlainly(holders, SecretMap(holders))
            && forall s <- sites :: Fitting(StripUuids(j), s))
  {
    if Completes(ProviderSites(j, decompiled)) {
      ProviderRuns(j, decompiled);
    }
    hide ProviderSites, Holders, UploadedProvider, StripUuids, Marked, NamesPatchable, AnsweredPlainly, PatchRuns,
         AllWalk;
    hide Arranged, Completes, CredentialsStrippable, Fitting, SecretMap, Records, Kept, StripPayload;
    if ProviderFits(j, decompiled) {
      UploadedDecides(j, decompiled);
    }
  }

  lemma UploadedDecides(j: Json, decompiled: Decompiled)
    requires CredentialsStrippable(j) && Completes(ProviderSites(j, decompiled))
    ensures var sites, holders := ProviderSites(j, decompiled), Holders(j, decompiled, false);
      UploadedProvider(j, decompiled) == Marked(StripUuids(j), sites)
      <==> AnsweredPlainly(holders, SecretMap(holders)) && forall s <- sites :: Fitting(StripUuids(j), s)
  {
    hide ProviderSites, Holders, ProviderBase, UploadedProvider, StripUuids, Marked, AnsweredPlainly, Answered,
         Arranged, Completes,
         CredentialsStrippable, Fitting, SecretMap, HoldersPlaced, HolderNet, StripThenPatch, WithoutUuids;
    var sites, holders := ProviderSites(j, decompiled), Holders(j, decompiled, false);
    SitesWithoutUuids(j, decompiled);
    StrippableObjects(j);
    HoldersWithoutUuids(j, decompiled);
    ProviderHoldersFirst(j, decompiled);
    BaseIs(j, decompiled);
    SameNet(holders, SecretMap(holders));
    AnsweredWithoutUuids(j, decompiled);
    EachDecides(StripUuids(j), WithoutUuids(holders), SecretMap(holders), sites);
  }

  /** A provider with one credential, whose secret holds a uuid. */
  const MARKED_SECRET: Json := Obj(map["value" := Str("v"), "uuid" := Str("u")])
  const MARKED_PROVIDER: Json :=
    Obj(map["credential_definition_list" := Arr([Obj(map["name" := Str("c"), "secret" := MARKED_SECRET])])])

  /** The uuid comes back with the secret, so the payload that is sent is not free of uuids. */
  lemma UuidReturns()
    ensures ProviderOutcome(MARKED_PROVIDER,
                            map[]) != Some(Marked(StripUuids(MARKED_PROVIDER), ProviderSites(MARKED_PROVIDER, map[])))
  {
    var holders := Holders(MARKED_PROVIDER, map[], false);
    assert SecretsOf(map[], CREDENTIALS) == map[];
    var h := holders[0];
    assert h in holders && h.receives && h.stripped && h.name == "c" && h.secret == Some(MARKED_SECRET);
    assert |holders| == 1 && holders[..0] == [];
    assert SecretMap(holders)["c"] == MARKED_SECRET;
    assert "uuid" in MARKED_SECRET.fields && "uuid" !in StripUuids(MARKED_SECRET).fields;
    assert !AnsweredPlainly(holders, SecretMap(holders));
    hide ProviderOutcome, Marked, ProviderSites, ProviderFits, Fitting, StripUuids;
    ProviderLaw(MARKED_PROVIDER, map[]);
  }

  /** Away from secrets, what is sent holds node by node what the provider held, without uuids. */
  lemma {:induction false} ProviderElsewhere(j: Json, decompiled: Decompiled, q: Path)
    requires ProviderOutcome(j, decompiled).Some? && Key("uuid") !in q
    requires q != [] && q[0] != Key("authentication") && q[0] != Key("credential_definition_list")
    requires forall s | OfProvider(s, j, decompiled) :: Diverge(s.path, q) && Diverge(s.filed, q)
    ensures var sent := ProviderOutcome(j, decompiled).value;
      && Lookup(sent, q).Some? == Lookup(j, q).Some?
      && (Lookup(j, q).Some? ==> SameNode(Lookup(j, q).value, Lookup(sent, q).value))
  {
    var sites, holders := ProviderSites(j, decompiled), Holders(j, decompiled, false);
    assert Completes(sites) && CredentialsStrippable(j);
    hide ProviderSites, Holders, StripUuids, SecretMap, HolderNet, Lookup, Apply, OfProvider, CredentialsStrippable,
         Completes, SameNode;
    forall s <- sites ensures Diverge(s.path, q) && Diverge(s.filed, q) {
      ProviderSitesAre(j, decompiled, s);
    }
    StrippableObjects(j);
    ProviderHoldersFirst(j, decompiled);
    Untouched(ProviderBase(j, decompiled), sites, q);
    HoldersHavePlaces(j, decompiled, false);
    HoldersLeave(StripUuids(j), holders, SecretMap(holders), q);
    StripExactly(j, q);
  }

  lemma BaseIs(j: Json, decompiled: Decompiled)
    ensures ProviderBase(j, decompiled)
         == Apply(StripUuids(j), HolderNet(Holders(j, decompiled, false), SecretMap(Holders(j, decompiled, false))))
  {
  }

  lemma ProviderSitesOff(j: Json, decompiled: Decompiled)
    ensures SitesOff(ProviderSites(j, decompiled))
  {
    hide ProviderSites;
    ProviderWellPlaced(j, decompiled);
  }

  lemma StrippableObjects(j: Json)
    requires CredentialsStrippable(j)
    ensures forall c <- Elements(j, CREDENTIALS) :: c.Obj?
  {
  }

  /**
   With no assumption on names or values: a credential whose name was stripped has the secret of the
   last stripped credential of that name again, its own uuids included.
   */
  lemma ProviderCredentialRestored(j: Json, decompiled: Decompiled, h: Holder)
    requires ProviderOutcome(j, decompiled).Some?
    requires var holders := Holders(j, decompiled, false); h in holders && h.receives && h.name in SecretMap(holders)
    ensures Lookup(ProviderOutcome(j, decompiled).value, h.path)
            == Some(SecretMap(Holders(j, decompiled, false))[h.name])
  {
    hide ProviderSites, Holders, StripUuids, SecretMap, Lookup, UploadedProvider, StripThenPatch,
         CredentialsStrippable, NamesPatchable, Completes, ProviderBase;
    StrippableObjects(j);
    ProviderHoldersFirst(j, decompiled);
    hide ProviderOutcome;
    HolderWritten(j, decompiled, h);
    SitesLeaveHolder(j, decompiled, h);
  }

  lemma HolderWritten(j: Json, decompiled: Decompiled, h: Holder)
    requires forall c <- Elements(j, CREDENTIALS) :: c.Obj?
    requires var holders := Holders(j, decompiled, false); h in holders && h.receives && h.name in SecretMap(holders)
    ensures Lookup(ProviderBase(j, decompiled), h.path) == Some(SecretMap(Holders(j, decompiled, false))[h.name])
  {
    hide Holders, StripUuids, SecretMap, HolderNet, Lookup;
    var holders := Holders(j, decompiled, false);
    PayloadHoldersPlaced(j, decompiled, false);
    var i :| 0 <= i < |holders| && holders[i] == h;
    ParentWithoutUuids(j, decompiled, h);
    NetWrites(StripUuids(j), holders, SecretMap(holders), i);
  }

  lemma SitesLeaveHolder(j: Json, decompiled: Decompiled, h: Holder)
    requires h in Holders(j, decompiled, false)
    ensures Lookup(StripThenPatch(ProviderBase(j, decompiled), ProviderSites(j, decompiled)), h.path)
            == Lookup(ProviderBase(j, decompiled), h.path)
  {
    hide ProviderSites, Holders, ProviderBase, StripThenPatch, Lookup;
    var sites := ProviderSites(j, decompiled);
    ProviderSitesOff(j, decompiled);
    HoldersHavePlaces(j, decompiled, false);
    forall s <- sites ensures Diverge(s.path, h.path) && Diverge(s.filed, h.path) {
      OffDiverges(s.path, h.path);
      OffDiverges(s.filed, h.path);
    }
    Untouched(ProviderBase(j, decompiled), sites, h.path);
  }

  lemma ParentWithoutUuids(j: Json, decompiled: Decompiled, h: Holder)
    requires forall c <- Elements(j, CREDENTIALS) :: c.Obj?
    requires h in Holders(j, decompiled, false)
    ensures h.path != [] && h.path[|h.path|-1].Key?
    ensures Lookup(StripUuids(j), h.path[..|h.path|-1]).Some? && Lookup(StripUuids(j), h.path[..|h.path|-1]).value.Obj?
  {
    hide Holders;
    PayloadHoldersPlaced(j, decompiled, false);
    HolderPathsUnmarked(j, decompiled, h);
    LookupCommutes(j, h.path[..|h.path|-1]);
  }

  lemma HolderPathsUnmarked(j: Json, decompiled: Decompiled, h: Holder)
    requires h in Holders(j, decompiled, false)
    ensures h.path != [] && NoUuidStep(h.path[..|h.path|-1])
  {
    hide IsModified;
  }

  /** Whatever else is put back, a holder that is stripped and looked at receives the map's entry. */
  lemma {:induction false} NetWrites(u: Json, holders: seq<Holder>, m: map<string, Json>, i: nat)
    requires i < |holders| && holders[i].receives && holders[i].name in m
    requires forall a, b | 0 <= a < |holders| && 0 <= b < |holders|
             && a != b :: Diverge(holders[a].path, holders[b].path)
    requires var h := holders[i]; h.path != [] && h.path[|h.path|-1].Key?
    requires var p := holders[i].path[..|holders[i].path|-1]; Lookup(u, p).Some? && Lookup(u, p).value.Obj?
    ensures Lookup(Apply(u, HolderNet(holders, m)), holders[i].path) == Some(m[holders[i].name])
  {
    hide OneNet, Apply, Lookup;
    var n := |holders| - 1;
    var before, h := holders[..n], holders[n];
    ApplySplit(u, HolderNet(before, m), OneNet(h, m));
    if i < n {
      NetWrites(u, before, m, i);
      OneNetMiss(h, m, holders[i].path);
      ApplyFrame(Apply(u, HolderNet(before, m)), OneNet(h, m), holders[i].path);
    } else {
      ParentStays(u, before, m, h.path);
      var k := Apply(u, HolderNet(before, m));
      OneNetReads(k, h.(secret := Lookup(k, h.path)), m);
      NetIgnoresSecret(h, Lookup(k, h.path), m);
    }
  }

  lemma NetIgnoresSecret(h: Holder, v: Option<Json>, m: map<string, Json>)
    ensures OneNet(h.(secret := v), m) == OneNet(h, m)
  {
  }

  lemma {:induction false} NoneStripped(holders: seq<Holder>)
    requires forall i | 0 <= i < |holders| :: !holders[i].stripped
    ensures HolderStrip(holders) == [] && SecretMap(holders) == map[]
  {
    if holders != [] {
      NoneStripped(holders[..|holders|-1]);
    }
  }

  lemma AuthNotStripped(j: Json, decompiled: Decompiled)
    ensures var credentials := CredentialHolders(Elements(j, CREDENTIALS), SecretsOf(decompiled, CREDENTIALS));
      && HolderStrip(Holders(j, decompiled, false)) == HolderStrip(credentials)
      && SecretMap(Holders(j, decompiled, false)) == SecretMap(credentials)
  {
    hide IsModified, CredentialHolders, HolderStrip, SecretMap;
    var credentials := CredentialHolders(Elements(j, CREDENTIALS), SecretsOf(decompiled, CREDENTIALS));
    var auth := AuthHolders(j, SecretsOf(decompiled, "authentication"), false);
    assert forall i | 0 <= i < |auth| :: !auth[i].stripped;
    hide AuthHolders;
    NoneStripped(auth);
    HolderSplit(credentials, auth);
    assert SecretMap(credentials) + map[] == SecretMap(credentials);
  }

  lemma ProviderWork(j: Json, decompiled: Decompiled)
    ensures var credentials := CredentialHolders(Elements(j, CREDENTIALS), SecretsOf(decompiled, CREDENTIALS));
      var holders, sites := Holders(j, decompiled, false), ProviderSites(j, decompiled);
      After(Held(Work(j, map[], [], []), credentials), sites)
      == Work(StripPayload(j, holders, sites), SecretMap(holders), Records(sites), Kept(sites))
  {
    hide ProviderSites, Holders, HolderStrip, SecretMap, Apply, CredentialHolders;
    AuthNotStripped(j, decompiled);
    var m := SecretMap(Holders(j, decompiled, false));
    assert map[] + m == m;
  }

  /** `upload_with_decompiled_secrets` of a provider, with a server that echoes the spec. */
  method UploadProvider(resources: Json, decompiled: Decompiled)
    returns (imported: Option<Json>, update: Option<Json>)
    ensures imported == ImportedProvider(resources, decompiled)
    ensures update == ProviderOutcome(resources, decompiled)
  {
    hide ProviderSites, Holders, HolderStrip, SecretMap, Apply, StripUuids, HolderPatch, StripPayload, PatchPayload,
         After, Held, Records, Kept;
    hide Completes, CredentialsStrippable, PatchRuns;
    var stripper := new Stripper(resources, decompiled);
    var ok := stripper.StripProviderSecrets();
    if !ok {
      return None, None;
    }
    ProviderWork(resources, decompiled);
    var uuids := new UuidStripper(stripper.tree);
    uuids.Strip([], stripper.tree);
    imported := Some(uuids.payload);
    var patcher := new Patcher(uuids.payload);
    ok := patcher.PatchSecrets(stripper.secretMap, stripper.secretVariables, stripper.notStripped);
    if !ok {
      return imported, None;
    }
    update := Some(patcher.resources);
  }
}
