/**
 What is sent first, before the server knows the entity: no secret but those that were decompiled as
 they are, no runbook of a patch config, no uuid of a provider, and all else as the user wrote it.
 */
module FirstUpload {
  import opened Options
  import opened JsonTree
  import opened SecretSites
  import opened SecretWalk
  import opened SecretRoundTrip
  import opened SecretPayload
  import opened SecretLaw
  import opened SecretEntities
  import opened UuidStrip
  import opened SecretInventory
  import opened SecretOutcome
  import B = BlueprintUpload
  import R = RunbookUpload
  import V = ProviderUpload

  /** A decompiled secret has its value, any other is replaced. */
  predicate Hidden(t: Json, s: Site) {
    if WasKnown(s) then Lookup(t, s.path + [Key("value")]) == s.value else Replaced(t, s)
  }

  /** Two trees that agree at and below a secret. */
  lemma {:induction false} SameHidden(a: Json, b: Json, s: Site)
    requires Hidden(a, s)
    requires Lookup(a, s.path) == Lookup(b, s.path)
    requires Lookup(a, s.path + [Key("value")]) == Lookup(b, s.path + [Key("value")])
    requires Lookup(a, s.path + [Key("attrs")]) == Lookup(b, s.path + [Key("attrs")])
    ensures Hidden(b, s)
  {
    hide Lookup;
  }

  lemma AccountedIsHidden(t: Json, records: seq<SecretRecord>, kept: seq<KeptRecord>, s: Site)
    requires Accounted(t, records, kept, s)
    ensures Hidden(t, s)
  {
    hide Lookup, Replaced;
  }

  // ----- blueprints

  /** Every secret of the five lists. */
  lemma BlueprintHides(j: Json, decompiled: Decompiled, k: string, i: nat, s: Site)
    requires B.CreatedBlueprint(j, decompiled).Some? && OfEntity(s, j, k, i, decompiled)
    requires k in {"service_definition_list", "package_definition_list", "substrate_definition_list",
                   "app_profile_list",
                   "credential_definition_list"}
    ensures Hidden(B.CreatedBlueprint(j, decompiled).value, s)
  {
    hide OfEntity, PayloadSites, Holders, Accounted, Hidden, StripPayload, B.WithoutConfigs, B.ConfigsFit,
         NamesStrippable;
    var holders, sites := Holders(j, decompiled, true), PayloadSites(j, BLUEPRINT_LISTS, [], decompiled);
    var t := StripPayload(j, holders, sites);
    BlueprintNames();
    BlueprintSitesAre(j, decompiled, s);
    BlueprintIsPayload(s, j, k, i, decompiled);
    SecretsAccounted(j, BLUEPRINT_LISTS, [], decompiled, s);
    AccountedIsHidden(t, Records(sites), Kept(sites), s);
    B.BlueprintSites(j, decompiled);
    assert s in sites;
    ConfiglessSame(t, s.path);
    ConfiglessSame(t, s.path + [Key("value")]);
    ConfiglessSame(t, s.path + [Key("attrs")]);
    SameHidden(t, B.WithoutConfigs(t), s);
  }

  lemma BlueprintIsPayload(s: Site, j: Json, k: string, i: nat, decompiled: Decompiled)
    requires OfEntity(s, j, k, i, decompiled) && k in BLUEPRINT_LISTS
    ensures OfPayload(s, j, BLUEPRINT_LISTS, [], decompiled)
  {
    hide OfEntity;
  }

  lemma ConfiglessSame(t: Json, q: Path)
    requires B.OffConfigs(q)
    ensures Lookup(B.WithoutConfigs(t), q) == Lookup(t, q)
  {
    hide Lookup, Apply, B.OffConfigs, B.IsConfigPath;
    RemovalsAreConfigs(t);
    B.ConfigsLeave(t, B.Removals(B.ConfigPaths(Elements(t, B.PROFILES))), q);
  }

  lemma RemovalsAreConfigs(t: Json)
    ensures B.ConfigEdits(B.Removals(B.ConfigPaths(Elements(t, B.PROFILES))))
  {
    hide B.ConfigPaths, B.Removals, B.IsConfigPath, B.Attachments;
    var profiles := Elements(t, B.PROFILES);
    B.ConfigPathsFit(profiles);
    B.ConfigEditPaths(B.ConfigPaths(profiles), Null);
    var paths := B.ConfigPaths(profiles);
    forall e <- B.Removals(paths) ensures B.IsConfigPath(e.path) {
      assert e in B.Removals(paths) + B.Attachments(paths, Null);
    }
  }

  /** A credential that was not decompiled with this secret. */
  lemma BlueprintHidesCredential(j: Json, decompiled: Decompiled, i: nat)
    requires B.CreatedBlueprint(j, decompiled).Some? && i < |Elements(j, "credential_definition_list")|
    ensures var c := Elements(j, "credential_definition_list")[i];
      var unset := Obj(map["is_secret_modified" := Bool(false), "secret_reference" := Null]);
      Lookup(B.CreatedBlueprint(j, decompiled).value, [Key("credential_definition_list"), Idx(i), Key("secret")])
      == if CredentialKnown(c, decompiled) then Get(c, "secret") else Some(Obj(map["attrs" := unset]))
  {
    var q := [Key("credential_definition_list"), Idx(i), Key("secret")];
    var sites := PayloadSites(j, BLUEPRINT_LISTS, [], decompiled);
    hide PayloadSites, Holders, StripPayload, B.WithoutConfigs, B.ConfigsFit, NamesStrippable, Lookup, CredentialKnown;
    var t := StripPayload(j, Holders(j, decompiled, true), sites);
    B.BlueprintSites(j, decompiled);
    CredentialAccounted(j, decompiled, true, sites, i);
    ConfiglessSame(t, q);
  }

  lemma ListedConfig(profiles: seq<Json>, i: nat, k: nat)
    requires i < |profiles| && k < |Elements(profiles[i], "patch_list")|
    ensures B.ConfigPath(i, k) in B.ConfigPaths(profiles)
  {
    hide Elements, B.ConfigPath;
    B.FirstPathsListed(profiles, i + 1);
    var row := B.RowPaths(i, |Elements(profiles[i], "patch_list")|);
    assert row[k] in row;
    assert profiles[..i+1][..i] == profiles[..i];
    assert B.ConfigPaths(profiles[..i+1]) == B.ConfigPaths(profiles[..i]) + row;
  }

  lemma {:induction false} RemovedAt(t: Json, paths: seq<Path>, n: nat, q: Path)
    requires n <= |paths| && forall p | p in paths :: B.IsConfigPath(p)
    requires B.IsConfigPath(q)
    ensures Lookup(Apply(t, B.Removals(paths[..n])), q) == if q in paths[..n] then None else Lookup(t, q)
  {
    if n == 0 {
      B.NoRows(0, t, Null);
      assert paths[..0] == B.RowPaths(0, 0);
    } else {
      var before, p := paths[..n-1], paths[n-1];
      RemovedAt(t, paths, n - 1, q);
      assert paths[..n] == before + [p];
      B.RemoveLast(t, before, p);
      assert p in paths && p[4] == Key("runbook");
      hide Lookup, Apply, B.Removals, B.IsConfigPath;
      var k := Apply(t, B.Removals(before));
      if p == q {
        Gone(k, p);
      } else {
        B.ConfigsDiverge(p, q);
        WriteFrame(k, p, None, q);
      }
    }
  }

  lemma {:induction false} Gone(j: Json, p: Path)
    requires p != [] && p[|p|-1].Key?
    ensures Lookup(Write(j, p, None), p) == None
  {
    if |p| > 1 && Child(j, p[0]).Some? {
      Gone(Child(j, p[0]).value, p[1..]);
    }
  }

  /** No patch config of any profile has a runbook. */
  lemma BlueprintWithoutRunbooks(j: Json, decompiled: Decompiled, i: nat, k: nat)
    requires B.CreatedBlueprint(j, decompiled).Some?
    ensures var q := [Key("app_profile_list"), Idx(i), Key("patch_list"), Idx(k), Key("runbook")];
      Lookup(B.CreatedBlueprint(j, decompiled).value, q) == None
  {
    hide PayloadSites, Holders, StripPayload, B.ConfigsFit, NamesStrippable;
    var t := StripPayload(j, Holders(j, decompiled, true), PayloadSites(j, BLUEPRINT_LISTS, [], decompiled));
    ConfiglessAt(t, i, k);
  }

  lemma ConfiglessAt(t: Json, i: nat, k: nat)
    ensures Lookup(B.WithoutConfigs(t), B.ConfigPath(i, k)) == None
  {
    var profiles := Elements(t, "app_profile_list");
    var paths, q := B.ConfigPaths(profiles), B.ConfigPath(i, k);
    B.ConfigPathsFit(profiles);
    RemovedAt(t, paths, |paths|, q);
    assert paths[..|paths|] == paths;
    if Lookup(t, q).Some? {
      ConfigListed(t, i, k);
      ListedConfig(profiles, i, k);
    }
  }

  lemma ConfigListed(t: Json, i: nat, k: nat)
    requires Lookup(t, B.ConfigPath(i, k)).Some?
    ensures var profiles := Elements(t, "app_profile_list");
      i < |profiles| && k < |Elements(profiles[i], "patch_list")|
  {
    var list, row := [Key("app_profile_list")], [Idx(i)];
    var configs, rest := [Key("patch_list")], [Idx(k), Key("runbook")];
    assert B.ConfigPath(i, k) == list + (row + (configs + rest));
    LookupSplit(t, list, row + (configs + rest));
    OneStep(t, list[0]);
    var profiles := Lookup(t, list).value;
    LookupSplit(profiles, row, configs + rest);
    OneStep(profiles, row[0]);
    var profile := Lookup(profiles, row).value;
    LookupSplit(profile, configs, rest);
    OneStep(profile, configs[0]);
    var items := Lookup(profile, configs).value;
    assert Child(items, rest[0]).Some?;
  }

  /** All else. */
  lemma {:induction false} BlueprintElsewhere(j: Json, decompiled: Decompiled, q: Path)
    requires B.CreatedBlueprint(j, decompiled).Some?
    requires q != [] && q[0] != Key("authentication") && q[0] != Key("credential_definition_list")
    requires forall s | OfPayload(s, j, BLUEPRINT_LISTS, [], decompiled) && !WasKnown(s) :: !Writes(s, q)
    requires forall i: nat, k: nat :: Diverge(B.ConfigPath(i, k), q)
    ensures Lookup(B.CreatedBlueprint(j, decompiled).value, q) == Lookup(j, q)
  {
    hide PayloadSites, Holders, StripPayload, B.ConfigsFit, NamesStrippable, OfPayload, WasKnown, Lookup, Writes;
    var t := StripPayload(j, Holders(j, decompiled, true), PayloadSites(j, BLUEPRINT_LISTS, [], decompiled));
    NothingElseStripped(j, BLUEPRINT_LISTS, [], decompiled, q);
    RemovalsAreConfigs(t);
    var edits := B.Removals(B.ConfigPaths(Elements(t, B.PROFILES)));
    forall e <- edits ensures Diverge(e.path, q) {
      assert B.IsConfigPath(e.path);
      assert e.path == B.ConfigPath(e.path[1].idx, e.path[3].idx);
    }
    ApplyFrame(t, edits, q);
  }

  // ----- tasks handed to the merge

  /** Under the last profile and config of their names: the tasks of that config's runbook. */
  lemma {:induction false} TasksAreLast(profiles: seq<Json>, i: nat, k: nat)
    requires i < |profiles| && forall m | i < m < |profiles| :: NameOf(profiles[m]) != NameOf(profiles[i])
    requires var configs := Elements(profiles[i], "patch_list");
      k < |configs| && forall m | k < m < |configs| :: NameOf(configs[m]) != NameOf(configs[k])
    ensures var tasks, config := B.TasksOfProfiles(profiles), Elements(profiles[i], "patch_list")[k];
      && NameOf(profiles[i]) in tasks && NameOf(config) in tasks[NameOf(profiles[i])]
      && tasks[NameOf(profiles[i])][NameOf(config)] == Elements(OrNull(Get(config, "runbook")), "task_definition_list")
  {
    var n := |profiles| - 1;
    Read(profiles[n]);
    if i == n {
      ConfigTasksAreLast(Elements(profiles[n], "patch_list"), k);
    } else {
      hide B.TasksOfConfigs, Elements, NameOf, Text;
      Read(profiles[i]);
      TasksAreLast(profiles[..n], i, k);
    }
  }

  lemma {:induction false} ConfigTasksAreLast(configs: seq<Json>, k: nat)
    requires k < |configs| && forall m | k < m < |configs| :: NameOf(configs[m]) != NameOf(configs[k])
    ensures NameOf(configs[k]) in B.TasksOfConfigs(configs)
    ensures B.TasksOfConfigs(configs)[NameOf(configs[k])]
         == Elements(OrNull(Get(configs[k], "runbook")), "task_definition_list")
  {
    hide Elements, NameOf, Text;
    var n := |configs| - 1;
    Read(configs[n]);
    if k < n {
      ConfigTasksAreLast(configs[..n], k);
    }
  }

  // ----- runbooks

  /** Every secret of the main runbook, for which nothing is ever known. */
  lemma RunbookHides(j: Json, s: Site)
    requires R.CreatedRunbook(j).Some? && OfObject(s, Node(j, [Key("runbook")]), [Key("runbook")], map[], "runbook")
    ensures Hidden(R.CreatedRunbook(j).value, s)
  {
    hide OfObject, PayloadSites, Holders, Accounted, Hidden, StripPayload, NamesStrippable, R.EndpointsListed,
         R.AllStrippable, R.WithEndpoints, R.StripEndpoints, Elements;
    var holders, sites := Holders(j, map[], true), PayloadSites(j, [], R.RUNBOOK_OBJECTS, map[]);
    var t := StripPayload(j, holders, sites);
    R.RunbookNames();
    RunbookIsPayload(s, j);
    PayloadSitesAre(j, [], R.RUNBOOK_OBJECTS, map[], s);
    SecretsAccounted(j, [], R.RUNBOOK_OBJECTS, map[], s);
    AccountedIsHidden(t, Records(sites), Kept(sites), s);
    R.SitesOfRunbook(j);
    var endpoints := R.StripEndpoints(Elements(t, R.ENDPOINTS));
    BesideEndpoints(t, endpoints, s.path);
    BesideEndpoints(t, endpoints, s.path + [Key("value")]);
    BesideEndpoints(t, endpoints, s.path + [Key("attrs")]);
    SameHidden(t, R.WithEndpoints(t, endpoints), s);
  }

  lemma RunbookIsPayload(s: Site, j: Json)
    requires OfObject(s, Node(j, [Key("runbook")]), [Key("runbook")], map[], "runbook")
    ensures OfPayload(s, j, [], R.RUNBOOK_OBJECTS, map[])
  {
    hide OfObject;
    assert "runbook" in R.RUNBOOK_OBJECTS;
  }

  lemma {:induction false} BesideEndpoints(t: Json, endpoints: seq<Json>, q: Path)
    requires q != [] && q[0] != Key("endpoint_definition_list")
    ensures Lookup(R.WithEndpoints(t, endpoints), q) == Lookup(t, q)
  {
  }

  /** Every credential of the main runbook. */
  lemma RunbookHidesCredential(j: Json, i: nat)
    requires R.CreatedRunbook(j).Some? && i < |Elements(j, "credential_definition_list")|
    ensures var unset := Obj(map["is_secret_modified" := Bool(false), "secret_reference" := Null]);
      Lookup(R.CreatedRunbook(j).value, [Key("credential_definition_list"), Idx(i), Key("secret")])
      == Some(Obj(map["attrs" := unset]))
  {
    var q := [Key("credential_definition_list"), Idx(i), Key("secret")];
    hide PayloadSites, Holders, StripPayload, NamesStrippable, R.EndpointsListed, R.AllStrippable, R.WithEndpoints,
         R.StripEndpoints, Lookup;
    var sites := R.RunbookPayloadSites(j);
    var t := StripPayload(j, Holders(j, map[], true), sites);
    R.SitesOfRunbook(j);
    CredentialAccounted(j, map[], true, sites, i);
    BesideEndpoints(t, R.StripEndpoints(Elements(t, R.ENDPOINTS)), q);
  }

  /** All else of a runbook but its endpoints. */
  lemma {:induction false} RunbookElsewhere(j: Json, q: Path)
    requires R.CreatedRunbook(j).Some?
    requires q != [] && q[0] != Key("authentication") && q[0] != Key("credential_definition_list")
    requires q[0] != Key("endpoint_definition_list")
    requires forall s | OfPayload(s, j, [], ["runbook"], map[]) && !WasKnown(s) :: !Writes(s, q)
    ensures Lookup(R.CreatedRunbook(j).value, q) == Lookup(j, q)
  {
    hide PayloadSites, Holders, StripPayload, NamesStrippable, OfPayload, WasKnown, Lookup, Writes, R.EndpointsListed,
         R.AllStrippable, R.WithEndpoints, R.StripEndpoints, Elements;
    var t := StripPayload(j, Holders(j, map[], true), R.RunbookPayloadSites(j));
    NothingElseStripped(j, [], R.RUNBOOK_OBJECTS, map[], q);
    BesideEndpoints(t, R.StripEndpoints(Elements(t, R.ENDPOINTS)), q);
  }

  // ----- endpoints

  /** An endpoint with its credentials and authentication replaced, without the default credential reference. */
  predicate EndpointHides(before: Json, after: Json) {
    var attrs, hidden := OrNull(Get(before, "attrs")), OrNull(Get(after, "attrs"));
    var unset := Obj(map["is_secret_modified" := Bool(false), "secret_reference" := Null]);
    var unmodified := Obj(map["is_secret_modified" := Bool(false), "value" := Null]);
    && (forall i: nat | i < |Elements(attrs, "credential_definition_list")| ::
          Lookup(hidden, [Key("credential_definition_list"), Idx(i), Key("secret")])
              == Some(Obj(map["attrs" := unset])))
    && (Typed(OrNull(Get(attrs, "authentication")), "type", "basic") ==>
          Lookup(hidden, [Key("authentication"), Key("password")]) == Some(Obj(map["attrs" := unmodified])))
    && Get(hidden, "default_credential_local_reference") == None
  }

  /** Its other members, and those of its `attrs`, as they were. */
  ghost predicate EndpointKeeps(before: Json, after: Json) {
    && (forall k: string | k != "attrs" :: Get(after, k) == Get(before, k))
    && (forall k: string | k !in {"credential_definition_list", "authentication",
                                  "default_credential_local_reference"} ::
          Get(OrNull(Get(after, "attrs")), k) == Get(OrNull(Get(before, "attrs")), k))
  }

  lemma EndpointStripped(endpoint: Json)
    requires R.Strippable(endpoint)
    ensures EndpointHides(endpoint, R.StripEndpoint(endpoint)) && EndpointKeeps(endpoint, R.StripEndpoint(endpoint))
  {
    var attrs := R.AttrsOf(endpoint);
    R.IsObject(endpoint);
    var stripped := R.WithoutDefault(StripPayload(attrs, Holders(attrs, map[], true), []));
    assert R.StripEndpoint(endpoint) == R.WithAttrs(endpoint, stripped);
    forall i: nat | i < |Elements(attrs, "credential_definition_list")|
      ensures Lookup(stripped, [Key("credential_definition_list"), Idx(i), Key("secret")])
           == Some(Obj(map["attrs" := Obj(map["is_secret_modified" := Bool(false), "secret_reference" := Null])]))
    {
      CredentialStripped(attrs, i);
    }
    AttrsStripped(attrs);
    OtherAttrs(attrs);
    OtherMembers(endpoint, stripped);
    hide StripPayload, Holders, R.HoldersOf, Lookup, R.WithoutDefault, NamesStrippable, R.WithAttrs, R.StripEndpoint;
  }

  lemma CredentialStripped(attrs: Json, i: nat)
    requires NamesStrippable(attrs, true) && i < |Elements(attrs, "credential_definition_list")|
    ensures Lookup(R.WithoutDefault(StripPayload(attrs, Holders(attrs, map[], true), [])),
                   [Key("credential_definition_list"), Idx(i), Key("secret")])
         == Some(Obj(map["attrs" := Obj(map["is_secret_modified" := Bool(false), "secret_reference" := Null])]))
  {
    hide StripPayload, Holders, Lookup, R.WithoutDefault, NamesStrippable;
    CredentialAccounted(attrs, map[], true, [], i);
    BesideDefault(StripPayload(attrs, Holders(attrs, map[], true), []),
                  [Key("credential_definition_list"), Idx(i), Key("secret")]);
  }

  lemma AttrsStripped(attrs: Json)
    requires NamesStrippable(attrs, true)
    ensures var stripped := R.WithoutDefault(StripPayload(attrs, Holders(attrs, map[], true), []));
      && Get(stripped, "default_credential_local_reference") == None
      && (Typed(OrNull(Get(attrs, "authentication")), "type", "basic") ==>
            Lookup(stripped, [Key("authentication"), Key("password")])
            == Some(Obj(map["attrs" := Obj(map["is_secret_modified" := Bool(false), "value" := Null])])))
  {
    hide StripPayload, Holders, Lookup, NamesStrippable;
    var t := StripPayload(attrs, Holders(attrs, map[], true), []);
    PasswordStripped(attrs);
    BesideDefault(t, [Key("authentication"), Key("password")]);
    DefaultGone(t);
  }

  lemma {:induction false} BesideDefault(t: Json, q: Path)
    requires q != [] && q[0] != Key("default_credential_local_reference")
    ensures Lookup(R.WithoutDefault(t), q) == Lookup(t, q)
  {
  }

  lemma DefaultGone(t: Json)
    ensures Get(R.WithoutDefault(t), "default_credential_local_reference") == None
  {
  }

  lemma PasswordStripped(attrs: Json)
    requires NamesStrippable(attrs, true)
    ensures Typed(OrNull(Get(attrs, "authentication")), "type", "basic") ==>
              Lookup(StripPayload(attrs, Holders(attrs, map[], true), []), [Key("authentication"), Key("password")])
              == Some(Obj(map["attrs" := Obj(map["is_secret_modified" := Bool(false), "value" := Null])]))
  {
    var n, holders := |Elements(attrs, "credential_definition_list")|, Holders(attrs, map[], true);
    OneAuthentication(attrs, map[], true);
    if Typed(OrNull(Get(attrs, "authentication")), "type", "basic") {
      assert AuthTaken(attrs, map[], true, holders[n].name) by {
        AuthNamed(attrs);
      }
      HolderRead(attrs, map[], true, [], n);
    }
  }

  lemma AuthNamed(attrs: Json)
    requires OrNull(Get(attrs, "authentication")).Obj?
    ensures var n, holders := |Elements(attrs, "credential_definition_list")|, Holders(attrs, map[], true);
      var user := OrNull(Get(OrNull(Get(attrs, "authentication")), "username"));
      |holders| > n && holders[n].name == if user.Str? then user.s else ""
  {
    hide CredentialHolders;
  }

  lemma OtherAttrs(attrs: Json)
    ensures forall k: string |
              k !in {"credential_definition_list", "authentication", "default_credential_local_reference"} ::
              Get(R.WithoutDefault(StripPayload(attrs, Holders(attrs, map[], true), [])), k) == Get(attrs, k)
  {
    hide R.WithoutDefault, StripPayload, Holders;
    forall k: string | k !in {"credential_definition_list", "authentication", "default_credential_local_reference"}
      ensures Get(R.WithoutDefault(StripPayload(attrs, Holders(attrs, map[], true), [])), k) == Get(attrs, k)
    {
      OtherAttr(attrs, k);
    }
  }

  lemma OtherAttr(attrs: Json, k: string)
    requires k !in {"credential_definition_list", "authentication", "default_credential_local_reference"}
    ensures Get(R.WithoutDefault(StripPayload(attrs, Holders(attrs, map[], true), [])), k) == Get(attrs, k)
  {
    hide Holders, HolderStrip, Apply, Lookup, R.WithoutDefault;
    var holders := Holders(attrs, map[], true);
    var q, t := [Key(k)], StripPayload(attrs, holders, []);
    HoldersHavePlaces(attrs, map[], true);
    HoldersAvoid(holders, map[], q);
    ApplyFrame(attrs, HolderStrip(holders), q);
    NothingToStrip(Apply(attrs, HolderStrip(holders)));
    BesideDefault(t, q);
    OneStep(attrs, q[0]);
    OneStep(t, q[0]);
    OneStep(R.WithoutDefault(t), q[0]);
  }

  lemma NothingToStrip(j: Json)
    ensures Apply(j, StripEdits([])) == j
  {
  }

  lemma OtherMembers(endpoint: Json, attrs: Json)
    requires endpoint.Obj?
    ensures var after := R.WithAttrs(endpoint, attrs);
      Get(after, "attrs") == Some(attrs) && forall k: string | k != "attrs" :: Get(after, k) == Get(endpoint, k)
  {
  }

  /** Endpoint by endpoint. */
  lemma EndpointsHide(j: Json, i: nat)
    requires R.CreatedRunbook(j).Some? && i < |Elements(j, "endpoint_definition_list")|
    ensures var before, after := Elements(j, "endpoint_definition_list"),
                                 Elements(R.CreatedRunbook(j).value, "endpoint_definition_list");
      |after| == |before| && EndpointHides(before[i], after[i]) && EndpointKeeps(before[i], after[i])
  {
    hide Holders, R.RunbookPayloadSites, StripPayload, NamesStrippable, Completes, R.Strippable, R.StripEndpoint,
         EndpointHides, EndpointKeeps;
    R.StripLeavesEndpoints(j);
    var endpoints := Elements(j, "endpoint_definition_list");
    assert endpoints[i] in endpoints;
    EndpointStripped(endpoints[i]);
  }

  /** The map under a name is that of the last endpoint of the name. */
  lemma {:induction false} MapsAreLast(endpoints: seq<Json>, i: nat)
    requires i < |endpoints|
    requires forall k | i < k < |endpoints| :: OrNull(Get(endpoints[k], "name")) != OrNull(Get(endpoints[i], "name"))
    ensures var name := OrNull(Get(endpoints[i], "name"));
      && name in R.MapsOf(endpoints)
      && R.MapsOf(endpoints)[name] == SecretMap(Holders(OrNull(Get(endpoints[i], "attrs")), map[], true))
  {
    hide Holders, SecretMap;
    var n := |endpoints| - 1;
    if i < n {
      MapsAreLast(endpoints[..n], i);
    }
  }

  /** An endpoint that comes back whole: only its default credential reference is gone. */
  predicate BackWithoutDefault(before: Json, after: Json) {
    && before.Obj? && after.Obj? && "attrs" in before.fields
    && match before.fields["attrs"]
       case Obj(attrs) =>
         after.fields == before.fields["attrs" := Obj(attrs - {"default_credential_local_reference"})]
       case _ => after == before
  }

  /** When the update is as intended, it holds every endpoint of the user's, in the server's order. */
  lemma EndpointsArrive(j: Json, order: seq<nat>, i: nat)
    requires R.Ordering(order, |Elements(j, "endpoint_definition_list")|) && i < |order|
    requires R.RunbookOutcome(j, order) == Some(R.IntendedRunbook(j, order))
    ensures var before, after := Elements(j, "endpoint_definition_list"),
                                 Elements(R.RunbookOutcome(j, order).value, "endpoint_definition_list");
      |after| == |order| && BackWithoutDefault(before[order[i]], after[i])
  {
    var endpoints := Elements(j, "endpoint_definition_list");
    R.RunbookLaw(j, order);
    assert endpoints[order[i]] in endpoints;
    hide R.RunbookOutcome, R.RunbookPayloadSites, NamesFit, Marked, R.Ordering, R.AllAnswered, R.Intact,
         BackWithoutDefault;
    IntactBack(endpoints[order[i]]);
    IntendedEndpoints(j, order);
  }

  lemma IntendedEndpoints(j: Json, order: seq<nat>)
    requires R.Ordering(order, |Elements(j, "endpoint_definition_list")|)
    ensures Elements(R.IntendedRunbook(j, order), "endpoint_definition_list")
         == R.Picked(R.IntactOnes(Elements(j, "endpoint_definition_list")), order)
  {
    R.StripWithEndpoints(j, []);
    R.NoListNoOrder(j, order);
    hide Marked, R.RunbookPayloadSites, R.Ordering;
  }

  lemma IntactBack(endpoint: Json)
    requires R.EndpointFits(endpoint)
    ensures BackWithoutDefault(endpoint, R.Intact(endpoint))
  {
    R.IsObject(endpoint);
  }

  // ----- providers

  /** Every secret, uuids aside. */
  lemma ProviderHides(j: Json, decompiled: Decompiled, s: Site)
    requires V.ImportedProvider(j, decompiled).Some? && OfProvider(s, j, decompiled) && !WasKnown(s)
    ensures Replaced(V.ImportedProvider(j, decompiled).value, s)
  {
    hide OfProvider, ProviderSites, Holders, Accounted, StripPayload, CredentialsStrippable, WasKnown;
    var holders, sites := Holders(j, decompiled, false), ProviderSites(j, decompiled);
    var t := StripPayload(j, holders, sites);
    ProviderAccounted(j, decompiled, s);
    ProviderSitesAre(j, decompiled, s);
    V.ProviderUnmarked(j, decompiled);
    assert s in sites && NoUuidStep(s.path);
    assert Replaced(t, s) by {
      AccountedIsReplaced(t, Records(sites), Kept(sites), s);
    }
    StillReplaced(t, s);
  }

  lemma AccountedIsReplaced(t: Json, records: seq<SecretRecord>, kept: seq<KeptRecord>, s: Site)
    requires Accounted(t, records, kept, s) && !WasKnown(s)
    ensures Replaced(t, s)
  {
    hide Replaced;
  }

  lemma StillReplaced(t: Json, s: Site)
    requires Replaced(t, s) && NoUuidStep(s.path)
    ensures Replaced(StripUuids(t), s)
  {
    LookupCommutes(t, s.path);
    LookupCommutes(t, s.path + [Key("value")]);
    LookupCommutes(t, s.path + [Key("attrs")]);
    PlainPlaceholders();
    hide Lookup, StripUuids;
  }

  lemma PlainPlaceholders()
    ensures var unset := Obj(map["is_secret_modified" := Bool(false), "secret_reference" := Null]);
      var unmodified := Obj(map["is_secret_modified" := Bool(false)]);
      && StripUuids(unset) == unset
      && StripUuids(Obj(map["value" := Null, "attrs" := unmodified]))
          == Obj(map["value" := Null, "attrs" := unmodified])
      && StripUuids(Obj(map["attrs" := unset])) == Obj(map["attrs" := unset])
      && StripUuids(Obj(map["attrs" := unmodified])) == Obj(map["attrs" := unmodified])
  {
    V.PlaceholdersPlain();
    assert forall k: Kind :: StripUuids(Placeholder(k)) == Placeholder(k);
    assert Placeholder(OptionPassword)
        == Obj(map["value" := Null, "attrs" := Obj(map["is_secret_modified" := Bool(false)])]);
    assert Placeholder(AuthPassword) == Obj(map["attrs" := Obj(map["is_secret_modified" := Bool(false)])]);
  }

  /** Every credential. */
  lemma ProviderHidesCredential(j: Json, decompiled: Decompiled, i: nat)
    requires V.ImportedProvider(j, decompiled).Some? && i < |Elements(j, "credential_definition_list")|
    requires !CredentialKnown(Elements(j, "credential_definition_list")[i], decompiled)
    ensures var unset := Obj(map["is_secret_modified" := Bool(false), "secret_reference" := Null]);
      Lookup(V.ImportedProvider(j, decompiled).value, [Key("credential_definition_list"), Idx(i), Key("secret")])
      == Some(Obj(map["attrs" := unset]))
  {
    var sites := ProviderSites(j, decompiled);
    hide ProviderSites, Holders, StripPayload, CredentialsStrippable, Lookup, StripUuids, CredentialKnown;
    V.ProviderSitesOff(j, decompiled);
    assert NamesStrippable(j, false);
    CredentialAccounted(j, decompiled, false, sites, i);
    LookupCommutes(StripPayload(j, Holders(j, decompiled, false), sites),
                   [Key("credential_definition_list"), Idx(i), Key("secret")]);
    PlainPlaceholders();
  }

  /** No path of what is imported passes a `uuid` key, and away from secrets all else is there. */
  lemma {:induction false} ProviderImportedElsewhere(j: Json, decompiled: Decompiled, q: Path)
    requires V.ImportedProvider(j, decompiled).Some?
    ensures var imported := V.ImportedProvider(j, decompiled).value;
      && (Key("uuid") in q ==> Lookup(imported, q) == None)
      && (q != [] && q[0] != Key("authentication") && q[0] != Key("credential_definition_list") && Key("uuid") !in q
          && (forall s | OfProvider(s, j, decompiled) && !WasKnown(s) :: !Writes(s, q)) ==>
            && Lookup(imported, q).Some? == Lookup(j, q).Some?
            && (Lookup(j, q).Some? ==> SameNode(Lookup(j, q).value, Lookup(imported, q).value)))
  {
    hide OfProvider, ProviderSites, Holders, StripPayload, CredentialsStrippable, WasKnown, Lookup, StripUuids,
         SameNode,
         Writes;
    var t := StripPayload(j, Holders(j, decompiled, false), ProviderSites(j, decompiled));
    if Key("uuid") in q {
      if Lookup(StripUuids(t), q).Some? {
        NoUuidLeft(t, q);
      }
    } else if q != [] && q[0] != Key("authentication") && q[0] != Key("credential_definition_list")
              && forall s | OfProvider(s, j, decompiled) && !WasKnown(s) :: !Writes(s, q) {
      NothingElseTaken(j, decompiled, q);
      StripExactly(t, q);
    }
  }

  lemma {:induction false} NothingElseTaken(j: Json, decompiled: Decompiled, q: Path)
    requires Completes(ProviderSites(j, decompiled))
    requires q != [] && q[0] != Key("authentication") && q[0] != Key("credential_definition_list")
    requires forall s | OfProvider(s, j, decompiled) && !WasKnown(s) :: !Writes(s, q)
    ensures Lookup(StripPayload(j, Holders(j, decompiled, false), ProviderSites(j, decompiled)), q) == Lookup(j, q)
  {
    hide ProviderSites, OfProvider, Holders, HolderStrip, Apply, Lookup, WasKnown;
    var holders, sites := Holders(j, decompiled, false), ProviderSites(j, decompiled);
    HoldersHavePlaces(j, decompiled, false);
    HoldersAvoid(holders, map[], q);
    ApplyFrame(j, HolderStrip(holders), q);
    forall e <- StripEdits(sites) ensures Diverge(e.path, q) {
      var s := EditOrigin(sites, e);
      KnownIsNotStripped(s);
      ProviderSitesAre(j, decompiled, s);
    }
    ApplyFrame(Apply(j, HolderStrip(holders)), StripEdits(sites), q);
  }
}
