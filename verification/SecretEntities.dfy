/** The sites of whole payloads, as `strip_secrets` and `strip_provider_secrets` visit them. */
module SecretEntities {
  import opened Options
  import opened JsonTree
  import opened SecretSites
  import opened SecretWalk
  import opened SecretRoundTrip
  import opened SecretPlaces
  import opened SecretPayload
  import opened SecretLaw

  /** All objects of one list. */
  function RowSites(rows: seq<Json>, k: string, decompiled: Decompiled): (sites: seq<Site>) {
    if rows == [] then []
    else
      var n := |rows| - 1;
      RowSites(rows[..n], k, decompiled) + AllSites(rows[n], [Key(k), Idx(n)], decompiled, k)
  }

  /** A member that is to be walked as a list but is none. */
  function ListFault(resources: Json, k: string): (sites: seq<Site>) {
    if Listable(Get(resources, k)) then []
        else [MissingAt([Key(k), Idx(0), Key("list")], [Key(k), Idx(0), Key("list")])]
  }

  function OneListSites(resources: Json, k: string, decompiled: Decompiled): (sites: seq<Site>) {
    ListFault(resources, k) + RowSites(Elements(resources, k), k, decompiled)
  }

  function ListsSites(resources: Json, lists: seq<string>, decompiled: Decompiled): (sites: seq<Site>) {
    if lists == [] then []
    else
      var n := |lists| - 1;
      ListsSites(resources, lists[..n], decompiled) + OneListSites(resources, lists[n], decompiled)
  }

  function ObjectsSites(resources: Json, objects: seq<string>, decompiled: Decompiled): (sites: seq<Site>) {
    if objects == [] then []
    else
      var n := |objects| - 1;
      ObjectsSites(resources, objects[..n], decompiled)
      + AllSites(Node(resources, [Key(objects[n])]), [Key(objects[n])], decompiled, objects[n])
  }

  /** `strip_secrets` with the given `object_lists` and `objects`. */
  function PayloadSites(resources: Json, lists: seq<string>, objects: seq<string>, decompiled: Decompiled): seq<Site> {
    ListsSites(resources, lists, decompiled) + ObjectsSites(resources, objects, decompiled)
  }

  /** The lists and objects of one call: no name twice, and not the members handled by name. */
  ghost predicate EntityNames(lists: seq<string>, objects: seq<string>) {
    && (forall i, k | 0 <= i < k < |lists + objects| :: (lists + objects)[i] != (lists + objects)[k])
    && "authentication" !in lists + objects
    && CREDENTIALS !in objects
  }

  const BLUEPRINT_LISTS := ["service_definition_list", "package_definition_list", "substrate_definition_list",
                            "app_profile_list", CREDENTIALS]

  lemma BlueprintNames()
    ensures EntityNames(BLUEPRINT_LISTS, [])
  {
    var n := ["service_definition_list", "package_definition_list", "substrate_definition_list",
              "app_profile_list", CREDENTIALS];
    assert BLUEPRINT_LISTS + [] == n;
    assert n[0][1] == 'e' && n[1][1] == 'a' && n[2][1] == 'u' && n[3][1] == 'p' && n[4][1] == 'r';
    assert |n[0]| == 23;
    forall i, k | 0 <= i < k < |n| ensures n[i] != n[k] {
      assert n[i][1] != n[k][1];
    }
    forall i | 0 <= i < |n| ensures n[i] != "authentication" {
      assert n[i][0] != "authentication"[0] || n[i][1] != "authentication"[1];
    }
  }

  // ----- lists and objects fit together

  lemma {:induction false} RowsWellPlaced(j: Json, rows: seq<Json>, k: string, decompiled: Decompiled)
    requires ListAt(j, [Key(k)], rows)
    ensures Fitted(j, RowSites(rows, k, decompiled))
    ensures Home(RowSites(rows, k, decompiled), [Key(k)])
    ensures forall s <- RowSites(rows, k, decompiled) ::
              |s.path| > 1 && s.path[1].Idx? && s.path[1].idx < |rows|
              && |s.filed| > 1 && s.filed[1].Idx? && s.filed[1].idx < |rows|
  {
    if rows != [] {
      var n := |rows| - 1;
      var p := [Key(k), Idx(n)];
      assert p == [Key(k)] + [Idx(n)];
      RowsWellPlaced(j, rows[..n], k, decompiled);
      AllSitesWellPlaced(j, p, decompiled, k);
      var before, last := RowSites(rows[..n], k, decompiled), AllSites(rows[n], p, decompiled, k);
      assert Node(j, p) == rows[n];
      forall s <- last
        ensures [Key(k)] <= s.path && [Key(k)] <= s.filed && s.path[1] == Idx(n) && s.filed[1] == Idx(n)
      {
        assert s.path[0] == Key(k) && s.filed[0] == Key(k);
      }
      forall s <- before, t <- last ensures FarApart(s, t) {
        HeadsDiverge([Key(k)], s.path, t.path);
        HeadsDiverge([Key(k)], s.filed, t.path);
        HeadsDiverge([Key(k)], t.filed, s.path);
        HeadsDiverge([Key(k)], s.filed, t.filed);
      }
      JoinHomes(j, before, last);
    }
  }

  lemma {:induction false} RowsOff(rows: seq<Json>, k: string, decompiled: Decompiled)
    requires k != "authentication"
    ensures SitesOff(RowSites(rows, k, decompiled))
  {
    if rows != [] {
      var n := |rows| - 1;
      var p := [Key(k), Idx(n)];
      RowsOff(rows[..n], k, decompiled);
      AllSitesPlaced(rows[n], p, decompiled, k);
      forall s <- AllSites(rows[n], p, decompiled, k) ensures Off(s.path) && Off(s.filed) {
        PlacedOff(s, p, k);
      }
    }
  }

  lemma PlacedOff(s: Site, p: Path, k: string)
    requires InObject(s, p) && FiledInObject(s, p) && p <= s.filed
    requires k != "authentication" && p != [] && p[0] == Key(k)
    requires k == CREDENTIALS ==> |p| == 2 && p[1].Idx?
    ensures Off(s.path) && Off(s.filed)
  {
    assert s.path[0] == p[0] && s.filed[0] == p[0];
    if k == CREDENTIALS {
      assert s.path[1] == p[1] && s.filed[1] == p[1];
      if s.path == p + [Key("authentication"), Key("password")] {
        assert s.path[2] == Key("authentication");
      }
      if p + [Key("runbook")] <= s.filed {
        assert s.filed[2] == Key("runbook");
      }
      if p + [Key("authentication"), Key("basic_auth")] <= s.filed {
        assert s.filed[2] == Key("authentication");
      }
    }
  }

  /** Every site goes on from the root with one of the given keys. */
  ghost predicate Among(sites: seq<Site>, names: seq<string>) {
    forall s <- sites ::
          s.path != [] && s.filed != [] && s.path[0] == s.filed[0] && s.path[0].Key? && s.path[0].key in names
  }

  lemma JoinNames(j: Json, a: seq<Site>, names: seq<string>, b: seq<Site>, name: string)
    requires Fitted(j, a) && Fitted(j, b) && Among(a, names) && Home(b, [Key(name)])
    requires name !in names
    ensures Fitted(j, a + b) && Among(a + b, names + [name])
  {
    forall t <- b ensures t.path != [] && t.filed != [] && t.path[0] == Key(name) && t.filed[0] == Key(name) {
    }
    forall s <- a, t <- b ensures FarApart(s, t) {
    }
    JoinHomes(j, a, b);
  }

  /** A fault stands for an error: with it, nothing is claimed of the other sites of the list. */
  lemma OneListWellPlaced(j: Json, k: string, decompiled: Decompiled)
    requires k != "authentication"
    ensures var sites := OneListSites(j, k, decompiled); Fitted(j, sites) && Home(sites, [Key(k)]) && SitesOff(sites)
  {
    hide RowSites, Fitted;
    var fault, rows := ListFault(j, k), RowSites(Elements(j, k), k, decompiled);
    ElementsAt(j, [], k);
    assert [] + [Key(k)] == [Key(k)] && Node(j, []) == j;
    RowsWellPlaced(j, Elements(j, k), k, decompiled);
    RowsOff(Elements(j, k), k, decompiled);
    if fault == [] {
      assert fault + rows == rows;
    } else {
      Failed(j, fault, rows);
    }
  }

  lemma Failed(j: Json, fault: seq<Site>, sites: seq<Site>)
    requires fault != [] && fault[0].kind == Missing
    ensures Fitted(j, fault + sites) && !Completes(fault + sites)
  {
    assert fault[0] in fault + sites;
  }

  lemma {:induction false} ListsWellPlaced(j: Json, lists: seq<string>, decompiled: Decompiled)
    requires forall i, k | 0 <= i < k < |lists| :: lists[i] != lists[k]
    requires "authentication" !in lists
    ensures Fitted(j, ListsSites(j, lists, decompiled)) && SitesOff(ListsSites(j, lists, decompiled))
    ensures Among(ListsSites(j, lists, decompiled), lists)
  {
    if lists != [] {
      var n := |lists| - 1;
      var k := lists[n];
      assert lists == lists[..n] + [k];
      ListsWellPlaced(j, lists[..n], decompiled);
      OneListWellPlaced(j, k, decompiled);
      JoinNames(j, ListsSites(j, lists[..n], decompiled), lists[..n], OneListSites(j, k, decompiled), k);
    }
  }

  lemma ObjectHome(j: Json, k: string, decompiled: Decompiled)
    requires k != "authentication" && k != CREDENTIALS
    ensures var sites := AllSites(Node(j, [Key(k)]), [Key(k)], decompiled, k);
      Fitted(j, sites) && SitesOff(sites) && Home(sites, [Key(k)])
  {
    var p := [Key(k)];
    AllSitesWellPlaced(j, p, decompiled, k);
    AllSitesPlaced(Node(j, p), p, decompiled, k);
    forall s <- AllSites(Node(j, p), p, decompiled, k) ensures Off(s.path) && Off(s.filed) {
      PlacedOff(s, p, k);
    }
  }

  lemma {:induction false} ObjectsWellPlaced(j: Json, before: seq<Site>, names: seq<string>, objects: seq<string>,
                                             decompiled: Decompiled)
    requires Fitted(j, before) && SitesOff(before) && Among(before, names)
    requires EntityNames(names, objects)
    ensures Fitted(j, before + ObjectsSites(j, objects, decompiled))
    ensures SitesOff(before + ObjectsSites(j, objects, decompiled))
    ensures Among(before + ObjectsSites(j, objects, decompiled), names + objects)
  {
    if objects == [] {
      assert before + ObjectsSites(j, objects, decompiled) == before && names + objects == names;
    } else {
      var n := |objects| - 1;
      var k := objects[n];
      var fewer := ObjectsSites(j, objects[..n], decompiled);
      var last := AllSites(Node(j, [Key(k)]), [Key(k)], decompiled, k);
      NamesShorter(names, objects);
      ObjectsWellPlaced(j, before, names, objects[..n], decompiled);
      ObjectHome(j, k, decompiled);
      JoinObject(j, before, fewer, last, names, objects[..n], k);
      LastObject(j, objects, decompiled);
    }
  }

  lemma LastObject(j: Json, objects: seq<string>, decompiled: Decompiled)
    requires objects != []
    ensures var n := |objects| - 1;
      && objects == objects[..n] + [objects[n]]
      && ObjectsSites(j, objects, decompiled) == ObjectsSites(j, objects[..n], decompiled)
         + AllSites(Node(j, [Key(objects[n])]), [Key(objects[n])], decompiled, objects[n])
  {
    hide AllSites;
  }

  lemma JoinObject(j: Json, before: seq<Site>, fewer: seq<Site>, last: seq<Site>, names: seq<string>,
                   objects: seq<string>, k: string)
    requires Fitted(j, before + fewer) && SitesOff(before + fewer) && Among(before + fewer, names + objects)
    requires Fitted(j, last) && SitesOff(last) && Home(last, [Key(k)]) && k !in names + objects
    ensures Fitted(j, before + (fewer + last)) && SitesOff(before + (fewer + last))
    ensures Among(before + (fewer + last), names + (objects + [k]))
  {
    JoinNames(j, before + fewer, names + objects, last, k);
    assert before + (fewer + last) == before + fewer + last;
    assert names + (objects + [k]) == names + objects + [k];
  }

  lemma NamesShorter(names: seq<string>, objects: seq<string>)
    requires EntityNames(names, objects) && objects != []
    ensures EntityNames(names, objects[..|objects|-1])
    ensures objects[|objects|-1] !in names + objects[..|objects|-1]
    ensures objects[|objects|-1] != "authentication" && objects[|objects|-1] != CREDENTIALS
  {
    var all, fewer := names + objects, names + objects[..|objects|-1];
    forall i | 0 <= i < |fewer| ensures fewer[i] == all[i] {
    }
    assert all[|all|-1] == objects[|objects|-1];
    assert all[|all|-1] in all;
  }

  lemma PayloadWellPlaced(j: Json, lists: seq<string>, objects: seq<string>, decompiled: Decompiled)
    requires EntityNames(lists, objects)
    ensures Fitted(j, PayloadSites(j, lists, objects, decompiled))
    ensures SitesOff(PayloadSites(j, lists, objects, decompiled))
  {
    var all := lists + objects;
    assert forall i | 0 <= i < |lists| :: lists[i] == all[i];
    ListsWellPlaced(j, lists, decompiled);
    ObjectsWellPlaced(j, ListsSites(j, lists, decompiled), lists, objects, decompiled);
  }

  /** `strip_secrets`, a server that echoes what it was sent, `patch_secrets`; None when the client raises an error. */
  function PayloadOutcome(j: Json, lists: seq<string>, objects: seq<string>, decompiled: Decompiled): Option<Json> {
    Outcome(j, decompiled, true, PayloadSites(j, lists, objects, decompiled))
  }

  /**
   Blueprints, runbooks and endpoints, whatever the payload looks like: the client passes without an
   error exactly when all it reads is there and all it patches can be walked to, and gives back the
   payload, with only `attrs` of secrets set, exactly when moreover no names clash and every secret found by path fits.
   */
  lemma PayloadLaw(j: Json, lists: seq<string>, objects: seq<string>, decompiled: Decompiled)
    requires EntityNames(lists, objects)
    ensures var sites, outcome := PayloadSites(j, lists, objects, decompiled), PayloadOutcome(j, lists, objects,
          decompiled);
      && (outcome.Some? <==> NamesFit(j, true) && SitesFit(j, sites))
      && (outcome == Some(Marked(j, sites)) <==>
            && NamesFit(j, true) && SitesFit(j, sites)
            && Unclashing(Holders(j, decompiled, true)) && forall s <- sites :: Fitting(j, s))
  {
    PayloadWellPlaced(j, lists, objects, decompiled);
    OutcomeExactly(j, decompiled, true, PayloadSites(j, lists, objects, decompiled));
  }

  // ----- providers

  /** One resource type: everything of an entity, and its schema variables. */
  function ResourceTypeSites(obj: Json, p: Path, decompiled: Decompiled): seq<Site> {
    AllSites(obj, p, decompiled, "resource_type_list")
    + EntitySites(obj, p, p, decompiled, "schema_list", "resource_type_list")
  }

  function ResourceTypeListSites(rows: seq<Json>, decompiled: Decompiled): seq<Site> {
    if rows == [] then []
    else
      var n := |rows| - 1;
      ResourceTypeListSites(rows[..n], decompiled)
      + ResourceTypeSites(rows[n], [Key("resource_type_list"), Idx(n)], decompiled)
  }

  /** `strip_provider_secrets`, apart from credentials. */
  function ProviderSites(j: Json, decompiled: Decompiled): seq<Site> {
    TypesSites(j, decompiled)
    + EntitySites(j, [], [], decompiled, "variable_list", "variable_list")
    + EntitySites(j, [], [], decompiled, "auth_schema_list", "auth_schema_list")
    + SectionSites(j, ENDPOINT_SCHEMA, decompiled, "endpoint_schema_list")
    + AccountSites(j, decompiled)
    + ActionSites(j, [], decompiled, "action_list")
  }

  const ENDPOINT_SCHEMA: Path := [Key("endpoint_schema")]
  const ACCOUNT_DATA: Path := [Key("test_account"), Key("data")]

  function TypesSites(j: Json, decompiled: Decompiled): seq<Site> {
    ListFault(j, "resource_type_list") + ResourceTypeListSites(Elements(j, "resource_type_list"), decompiled)
  }

  /** The variables of a part of the payload that need not be there. */
  function SectionSites(j: Json, p: Path, decompiled: Decompiled, context: string): (sites: seq<Site>)
    ensures AllBased(sites, p, p) && Headed(sites, p, Key("variable_list"))
  {
    if Lookup(j, p).None? then [] else EntitySites(Node(j, p), p, p, decompiled, "variable_list", context)
  }

  function AccountSites(j: Json, decompiled: Decompiled): (sites: seq<Site>)
    ensures AllBased(sites, ACCOUNT_DATA, ACCOUNT_DATA) && Headed(sites, ACCOUNT_DATA, Key("variable_list"))
  {
    if ObjOrAbsent(Get(j, "test_account")) then SectionSites(j, ACCOUNT_DATA, decompiled, "test_account_variable_list")
    else [MissingAt(ACCOUNT_DATA + [Key("variable_list")], ACCOUNT_DATA + [Key("variable_list")])]
  }

  lemma ResourceTypeWellPlaced(j: Json, p: Path, decompiled: Decompiled)
    ensures Fitted(j, ResourceTypeSites(Node(j, p), p, decompiled))
    ensures Home(ResourceTypeSites(Node(j, p), p, decompiled), p)
  {
    var obj := Node(j, p);
    AllSitesWellPlaced(j, p, decompiled, "resource_type_list");
    AllSitesPlaced(obj, p, decompiled, "resource_type_list");
    EntityWellPlaced(j, p, decompiled, "schema_list", "resource_type_list");
    var a := AllSites(obj, p, decompiled, "resource_type_list");
    var b := EntitySites(obj, p, p, decompiled, "schema_list", "resource_type_list");
    HeadedHome(b, p, Key("schema_list"));
    forall s <- a, t <- b ensures FarApart(s, t) {
      ObjectMisses(s, p, t.path, Key("schema_list"));
      DivergeSymmetric(s.path, t.path);
    }
    JoinHomes(j, a, b);
  }

  /** Sites of an object and their files do not meet other members of that object. */
  lemma {:induction false} ObjectMisses(s: Site, p: Path, q: Path, x: Step)
    requires InObject(s, p) && FiledInObject(s, p)
    requires p < q && q[|p|] == x
    requires x !in {Key("variable_list"), Key("action_list"), TASKS, Key("authentication"), Key("runbook")}
    ensures Diverge(s.path, q) && Diverge(s.filed, q)
  {
    if s.path == p + [Key("authentication"), Key("password")] {
      assert s.path[|p|] == Key("authentication");
    }
    HeadsDiverge(p, s.path, q);
    if p + [Key("runbook")] <= s.filed {
      assert s.filed[|p|] == Key("runbook") && s.filed[..|p|] == p;
    }
    if p + [Key("authentication"), Key("basic_auth")] <= s.filed {
      assert s.filed[|p|] == Key("authentication") && s.filed[..|p|] == p;
    }
    HeadsDiverge(p, s.filed, q);
  }

  lemma {:induction false} ResourceTypesWellPlaced(j: Json, rows: seq<Json>, decompiled: Decompiled)
    requires ListAt(j, [Key("resource_type_list")], rows)
    ensures Fitted(j, ResourceTypeListSites(rows, decompiled))
    ensures Home(ResourceTypeListSites(rows, decompiled), [Key("resource_type_list")])
    ensures forall s <- ResourceTypeListSites(rows, decompiled) ::
              |s.path| > 1 && s.path[1].Idx? && s.path[1].idx < |rows|
              && |s.filed| > 1 && s.filed[1].Idx? && s.filed[1].idx < |rows|
  {
    if rows != [] {
      var n := |rows| - 1;
      var top := [Key("resource_type_list")];
      var p := [Key("resource_type_list"), Idx(n)];
      assert p == top + [Idx(n)];
      ResourceTypesWellPlaced(j, rows[..n], decompiled);
      ResourceTypeWellPlaced(j, p, decompiled);
      var before, last := ResourceTypeListSites(rows[..n], decompiled), ResourceTypeSites(rows[n], p, decompiled);
      assert Node(j, p) == rows[n];
      forall s <- last ensures top <= s.path && top <= s.filed && s.path[1] == Idx(n) && s.filed[1] == Idx(n) {
        assert s.path[0] == top[0] && s.filed[0] == top[0];
      }
      forall s <- before, t <- last ensures FarApart(s, t) {
        HeadsDiverge(top, s.filed, t.filed);
        HeadsDiverge(top, s.path, t.path);
        HeadsDiverge(top, s.filed, t.path);
        HeadsDiverge(top, t.filed, s.path);
      }
      JoinHomes(j, before, last);
    }
  }

  lemma ProviderWellPlaced(j: Json, decompiled: Decompiled)
    ensures Fitted(j, ProviderSites(j, decompiled)) && SitesOff(ProviderSites(j, decompiled))
  {
    hide TypesSites, EntitySites, SectionSites, AccountSites, ActionSites, Fitted;
    ProviderTypes(j, decompiled);
    ProviderMembers(j, decompiled);
    ProviderVariables(j, ENDPOINT_SCHEMA, "endpoint_schema", decompiled, "endpoint_schema_list");
    ProviderAccount(j, decompiled);
    SixNames(j, TypesSites(j, decompiled),
             EntitySites(j, [], [], decompiled, "variable_list", "variable_list"),
             EntitySites(j, [], [], decompiled, "auth_schema_list", "auth_schema_list"),
             SectionSites(j, ENDPOINT_SCHEMA, decompiled, "endpoint_schema_list"),
             AccountSites(j, decompiled),
             ActionSites(j, [], decompiled, "action_list"));
  }

  lemma ProviderTypes(j: Json, decompiled: Decompiled)
    ensures var types := TypesSites(j, decompiled); Fitted(j, types) && Home(types, [Key("resource_type_list")])
  {
    hide ResourceTypeListSites, Fitted;
    var fault, rows := ListFault(j, "resource_type_list"),
          ResourceTypeListSites(Elements(j, "resource_type_list"), decompiled);
    ElementsAt(j, [], "resource_type_list");
    assert [] + [Key("resource_type_list")] == [Key("resource_type_list")] && Node(j, []) == j;
    ResourceTypesWellPlaced(j, Elements(j, "resource_type_list"), decompiled);
    if fault == [] {
      assert fault + rows == rows;
    } else {
      Failed(j, fault, rows);
    }
  }

  lemma ProviderMembers(j: Json, decompiled: Decompiled)
    ensures var variables := EntitySites(j, [], [], decompiled, "variable_list", "variable_list");
      Fitted(j, variables) && Home(variables, [Key("variable_list")])
    ensures var schema := EntitySites(j, [], [], decompiled, "auth_schema_list", "auth_schema_list");
      Fitted(j, schema) && Home(schema, [Key("auth_schema_list")])
    ensures var actions := ActionSites(j, [], decompiled, "action_list");
      Fitted(j, actions) && Home(actions, [Key("action_list")])
  {
    assert Node(j, []) == j;
    assert forall k: Step :: [] + [k] == [k];
    EntityWellPlaced(j, [], decompiled, "variable_list", "variable_list");
    EntityWellPlaced(j, [], decompiled, "auth_schema_list", "auth_schema_list");
    ActionWellPlaced(j, [], decompiled, "action_list");
  }

  lemma ProviderVariables(j: Json, p: Path, name: string, decompiled: Decompiled, context: string)
    requires p != [] && p[0] == Key(name)
    ensures var sites := SectionSites(j, p, decompiled, context); Fitted(j, sites) && Home(sites, [Key(name)])
  {
    EntityWellPlaced(j, p, decompiled, "variable_list", context);
    FromHome(EntitySites(Node(j, p), p, p, decompiled, "variable_list", context), p + [Key("variable_list")], name);
  }

  lemma ProviderAccount(j: Json, decompiled: Decompiled)
    ensures Fitted(j, AccountSites(j, decompiled)) && Home(AccountSites(j, decompiled), [Key("test_account")])
  {
    ProviderVariables(j, ACCOUNT_DATA, "test_account", decompiled, "test_account_variable_list");
    if !ObjOrAbsent(Get(j, "test_account")) {
      Failed(j, AccountSites(j, decompiled), []);
      assert AccountSites(j, decompiled) + [] == AccountSites(j, decompiled);
    }
  }

  lemma FromHome(sites: seq<Site>, p: Path, name: string)
    requires Home(sites, p) && p != [] && p[0] == Key(name)
    ensures Home(sites, [Key(name)])
  {
    forall s <- sites ensures [Key(name)] <= s.path && [Key(name)] <= s.filed {
      assert s.path[0] == p[0] && s.filed[0] == p[0];
    }
  }

  lemma TopNames(sites: seq<Site>, names: seq<string>)
    requires Among(sites, names) && "authentication" !in names && CREDENTIALS !in names
    ensures SitesOff(sites)
  {
  }

  lemma TwoNames(j: Json, a: seq<Site>, b: seq<Site>)
    requires Fitted(j, a) && Fitted(j, b) && Home(a, [Key("resource_type_list")]) && Home(b, [Key("variable_list")])
    ensures Fitted(j, a + b) && Among(a + b, ["resource_type_list", "variable_list"])
  {
    var names := ["resource_type_list"];
    hide Fitted;
    forall s | s in a ensures s.path != [] && s.filed != [] && s.path[0] == s.filed[0] == Key("resource_type_list") {
    }
    assert names[0] in names && Among(a, names);
    assert names + ["variable_list"] == ["resource_type_list", "variable_list"];
    JoinNames(j, a, names, b, "variable_list");
  }

  lemma ThreeNames(j: Json, a: seq<Site>, b: seq<Site>, c: seq<Site>)
    requires Fitted(j, a) && Fitted(j, b) && Fitted(j, c)
    requires Home(a, [Key("resource_type_list")]) && Home(b, [Key("variable_list")])
             && Home(c, [Key("auth_schema_list")])
    ensures Fitted(j, a + b + c) && Among(a + b + c, ["resource_type_list", "variable_list", "auth_schema_list"])
  {
    hide Fitted, Home, Among;
    var names := ["resource_type_list", "variable_list"];
    TwoNames(j, a, b);
    assert names + ["auth_schema_list"] == ["resource_type_list", "variable_list", "auth_schema_list"];
    JoinNames(j, a + b, names, c, "auth_schema_list");
  }

  lemma MoreNames(j: Json, abc: seq<Site>, d: seq<Site>, e: seq<Site>, f: seq<Site>)
    requires Fitted(j, abc) && Fitted(j, d) && Fitted(j, e) && Fitted(j, f)
    requires Among(abc, ["resource_type_list", "variable_list", "auth_schema_list"])
    requires Home(d, [Key("endpoint_schema")]) && Home(e, [Key("test_account")]) && Home(f, [Key("action_list")])
    ensures Fitted(j, abc + d + e + f)
    ensures Among(abc + d + e + f, ["resource_type_list", "variable_list", "auth_schema_list"] + ["endpoint_schema"]
                  + ["test_account"] + ["action_list"])
  {
    hide Fitted;
    var names := ["resource_type_list", "variable_list", "auth_schema_list"];
    JoinNames(j, abc, names, d, "endpoint_schema");
    JoinNames(j, abc + d, names + ["endpoint_schema"], e, "test_account");
    JoinNames(j, abc + d + e, names + ["endpoint_schema"] + ["test_account"], f, "action_list");
  }

  lemma SixNames(j: Json, a: seq<Site>, b: seq<Site>, c: seq<Site>, d: seq<Site>, e: seq<Site>, f: seq<Site>)
    requires Fitted(j, a) && Fitted(j, b) && Fitted(j, c) && Fitted(j, d) && Fitted(j, e) && Fitted(j, f)
    requires Home(a, [Key("resource_type_list")]) && Home(b, [Key("variable_list")])
             && Home(c, [Key("auth_schema_list")])
    requires Home(d, [Key("endpoint_schema")]) && Home(e, [Key("test_account")]) && Home(f, [Key("action_list")])
    ensures Fitted(j, a + b + c + d + e + f) && SitesOff(a + b + c + d + e + f)
  {
    hide Fitted;
    ThreeNames(j, a, b, c);
    MoreNames(j, a + b + c, d, e, f);
    TopNames(a + b + c + d + e + f,
             ["resource_type_list", "variable_list", "auth_schema_list"] + ["endpoint_schema"] + ["test_account"]
                 + ["action_list"]);
  }
}
