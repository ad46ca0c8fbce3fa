/**
 What becomes of the runbook of one patch config in a blueprint upload, from the user's payload to
 the one sent back.
 */
module BlueprintMerge {
  import opened Options
  import opened JsonTree
  import opened SecretSites
  import opened SecretWalk
  import opened SecretPlaces
  import opened SecretPayload
  import opened SecretLaw
  import opened SecretEntities
  import opened StripPasses
  import opened BlueprintUpload
  import opened ConfigMerge
  import opened MergeResult
  import P = PatchConfigs

  // ----- the tasks that were taken out

  lemma NoRunbookNoTasks(c: Json)
    ensures P.TasksOf(ConfigView(c)) == TaskViews(Elements(OrNull(Get(c, "runbook")), TASKS.key))
  {
    var runbook := OrNull(Get(c, "runbook"));
    if !Truthy(runbook) {
      assert Elements(runbook, TASKS.key) == [];
    }
  }

  lemma {:induction false} ConfigTasksAreViews(configs: seq<Json>)
    ensures P.ConfigTasks(ConfigViews(configs)) == ConfigTaskViews(TasksOfConfigs(configs))
  {
    hide TaskViews, P.TasksOf, ConfigView, Elements, Text;
    if configs != [] {
      var n := |configs| - 1;
      ConfigTasksAreViews(configs[..n]);
      assert ConfigViews(configs)[..n] == ConfigViews(configs[..n]);
      NoRunbookNoTasks(configs[n]);
      ConfigName(configs[n]);
    }
  }

  lemma ConfigName(c: Json)
    ensures ConfigView(c).name == Text(c, "name")
  {
  }

  /** The tasks taken out of the JSON payload are the tasks of its profiles and configs. */
  lemma {:induction false} TasksAreViews(profiles: seq<Json>)
    ensures P.TasksByName(ProfileViews(profiles)) == ProfileTaskViews(TasksOfProfiles(profiles))
  {
    hide ConfigTaskViews, P.ConfigTasks, TasksOfConfigs, ConfigViews, Elements, Text;
    if profiles != [] {
      var n := |profiles| - 1;
      TasksAreViews(profiles[..n]);
      assert ProfileViews(profiles)[..n] == ProfileViews(profiles[..n]);
      ConfigTasksAreViews(Elements(profiles[n], CONFIGS.key));
    }
  }

  // ----- the runbooks that were attached

  lemma {:induction false} AttachedRead(j: Json, paths: seq<Path>, status: Json, q: Path)
    requires IsConfigPath(q) && q in paths && Apartness(paths) && forall p: Path | p in paths :: IsConfigPath(p)
    requires Lookup(j, q[..4]).Some? && Lookup(j, q[..4]).value.Obj?
    ensures Lookup(Apply(j, Attachments(paths, status)), q) == Some(Reported(status, q))
  {
    var n := |paths| - 1;
    var before, p := paths[..n], paths[n];
    assert paths == before + [p];
    FewerApart(before, p);
    hide Apply, Lookup, Attachments, Reported, Diverge, Apartness;
    if p == q {
      LastAttachedRead(j, before, status, q);
    } else {
      hide IsConfigPath;
      AttachedRead(j, before, status, q);
      EarlierAttachedRead(j, before, p, status, q);
    }
  }

  lemma LastAttachedRead(j: Json, before: seq<Path>, status: Json, q: Path)
    requires IsConfigPath(q) && Apartness(before + [q]) && forall p: Path | p in before :: IsConfigPath(p)
    requires Lookup(j, q[..4]).Some? && Lookup(j, q[..4]).value.Obj?
    ensures Lookup(Apply(j, Attachments(before + [q], status)), q) == Some(Reported(status, q))
  {
    AttachmentsEnd(j, before, q, status);
    ParentUntouched(j, before, status, q);
    hide Apply, Lookup, Attachments, Reported, Apartness, Write;
    assert q == q[..4] + [RUNBOOK];
    AssignKey(Apply(j, Attachments(before, status)), q[..4], RUNBOOK.key, Reported(status, q));
  }

  lemma EarlierAttachedRead(j: Json, before: seq<Path>, p: Path, status: Json, q: Path)
    requires IsConfigPath(p) && IsConfigPath(q) && p != q
    ensures Lookup(Apply(j, Attachments(before + [p], status)), q) == Lookup(Apply(j, Attachments(before, status)), q)
  {
    AttachmentsEnd(j, before, p, status);
    hide Apply, Lookup, Attachments, Reported, Write;
    ConfigsDiverge(p, q);
    WriteFrame(Apply(j, Attachments(before, status)), p, Some(Reported(status, p)), q);
  }

  lemma FewerApart(before: seq<Path>, p: Path)
    requires Apartness(before + [p])
    ensures Apartness(before)
  {
    var paths := before + [p];
    forall i, k | 0 <= i < |before| && 0 <= k < |before| && i != k ensures Diverge(before[i], before[k]) {
      assert paths[i] == before[i] && paths[k] == before[k];
    }
  }

  lemma AttachmentsEnd(j: Json, before: seq<Path>, p: Path, status: Json)
    ensures Apply(j, Attachments(before + [p], status))
            == Write(Apply(j, Attachments(before, status)), p, Some(Reported(status, p)))
  {
    hide Reported;
    AttachmentsSplit(before, [p], status);
    assert [p][..0] == [] && Attachments([p], status) == [Edit(p, Some(Reported(status, p)))];
    ApplySplit(j, Attachments(before, status), Attachments([p], status));
    OneEdit(Apply(j, Attachments(before, status)), Edit(p, Some(Reported(status, p))));
  }

  lemma ParentUntouched(j: Json, before: seq<Path>, status: Json, q: Path)
    requires IsConfigPath(q) && Apartness(before + [q]) && forall p: Path | p in before :: IsConfigPath(p)
    ensures Lookup(Apply(j, Attachments(before, status)), q[..4]) == Lookup(j, q[..4])
  {
    hide Apply, Lookup, Attachments;
    var paths := before + [q];
    ConfigEditPaths(before, status);
    forall e | e in Attachments(before, status) ensures Diverge(e.path, q[..4]) {
      assert e in Removals(before) + Attachments(before, status);
      var i :| 0 <= i < |before| && before[i] == e.path;
      assert paths[i] == e.path && paths[|before|] == q;
      NotBelow(e.path, q);
    }
    ApplyFrame(j, Attachments(before, status), q[..4]);
  }

  lemma NotBelow(p: Path, q: Path)
    requires IsConfigPath(p) && IsConfigPath(q) && Diverge(p, q)
    ensures Diverge(p, q[..4])
  {
    assert p != q by {
      if p == q {
        SelfMeets(p);
      }
    }
    if p[1] == q[1] {
      assert p[3] != q[3];
      assert p[..3] == q[..3] == q[..4][..3];
      HeadsDiverge(p[..3], p, q[..4]);
    } else {
      assert p[..1] == q[..1] == q[..4][..1];
      HeadsDiverge(p[..1], p, q[..4]);
    }
  }

  lemma {:induction false} SelfMeets(p: Path)
    ensures !Diverge(p, p)
  {
    if p != [] {
      SelfMeets(p[1..]);
    }
  }

  lemma {:induction false} ConfigPathListed(profiles: seq<Json>, i: nat, k: nat)
    requires i < |profiles| && k < |Elements(profiles[i], CONFIGS.key)|
    ensures ConfigPath(i, k) in ConfigPaths(profiles)
  {
    var n := |profiles| - 1;
    if i < n {
      ConfigPathListed(profiles[..n], i, k);
    } else {
      assert RowPaths(n, |Elements(profiles[n], CONFIGS.key)|)[k] == ConfigPath(i, k);
    }
  }

  /** Neither strip nor patch of secrets reaches a runbook of a patch config. */
  lemma SecretsMissConfig(j: Json, holders: seq<Holder>, sites: seq<Site>, secrets: map<string, Json>, q: Path)
    requires IsConfigPath(q) && SitesOffConfigs(sites) && forall h | h in holders :: HolderPlace(h.path)
    ensures Lookup(PatchPayload(StripPayload(j, holders, sites), secrets, Records(sites), Kept(sites)), q)
            == Lookup(j, q)
  {
    hide HolderStrip, StripEdits, HolderPatch, Records, Kept, Holders, Lookup, Apply;
    forall s | s in sites ensures Diverge(s.path, q) && Diverge(s.filed, q) {
      OffConfigsDiverges(s.path, q);
      OffConfigsDiverges(s.filed, q);
    }
    forall h | h in holders ensures Diverge(h.path, q) {
    }
    HoldersMiss(holders, map[], q);
    EditsMiss(sites, q);
    ApplyFrame(j, HolderStrip(holders), q);
    ApplyFrame(Apply(j, HolderStrip(holders)), StripEdits(sites), q);
    var t := StripPayload(j, holders, sites);
    HoldersHavePlaces(t, map[], false);
    var found := Holders(t, map[], false);
    forall h | h in found ensures Diverge(h.path, q) {
    }
    HoldersMiss(found, secrets, q);
    ApplyFrame(t, HolderPatch(found, secrets), q);
    var k := Apply(t, HolderPatch(found, secrets));
    PatchesMiss(k, sites, q);
    PatchesMiss(PatchKept(k, Kept(sites)), sites, q);
  }

  lemma Attached(j: Json, status: Json, i: nat, k: nat)
    requires i < |Elements(j, PROFILES)| && k < |ConfigsOf(j, i)| && ConfigsOf(j, i)[k].Obj?
    ensures Lookup(WithConfigs(j, status), ConfigPath(i, k)) == Some(Reported(status, ConfigPath(i, k)))
  {
    var q := ConfigPath(i, k);
    var paths := ConfigPaths(Elements(j, PROFILES));
    ConfigAt(j, i, k);
    hide Attachments, ConfigPaths, Lookup, Apply, Elements, Reported, ConfigsOf;
    ConfigPathsFit(Elements(j, PROFILES));
    ConfigsApart(paths, |Elements(j, PROFILES)|);
    assert q[..4] == [Key(PROFILES), Idx(i), CONFIGS, Idx(k)];
    AttachedRead(j, paths, status, q);
  }

  lemma ConfigAt(j: Json, i: nat, k: nat)
    requires i < |Elements(j, PROFILES)| && k < |ConfigsOf(j, i)|
    ensures Lookup(j, [Key(PROFILES), Idx(i), CONFIGS, Idx(k)]) == Some(ConfigsOf(j, i)[k])
    ensures ConfigsOf(j, i) == Elements(Elements(j, PROFILES)[i], CONFIGS.key)
    ensures ConfigPath(i, k) in ConfigPaths(Elements(j, PROFILES))
  {
    hide ConfigPaths;
    RootList(j, PROFILES);
    assert [Key(PROFILES)] + [Idx(i)] == [Key(PROFILES), Idx(i)];
    ElementsAt(j, [Key(PROFILES), Idx(i)], CONFIGS.key);
    assert [Key(PROFILES), Idx(i)] + [CONFIGS] + [Idx(k)] == [Key(PROFILES), Idx(i), CONFIGS, Idx(k)];
    ConfigPathListed(Elements(j, PROFILES), i, k);
  }

  /** The profiles of the upload with the user's tasks merged in. */
  function MergedFor(j: Json, reported: Json): Option<seq<Json>> {
    MergedStatus(TasksOfProfiles(Elements(j, PROFILES)), reported)
  }

  lemma FittingConfig(j: Json, i: nat, k: nat)
    requires ConfigsFit(j) && i < |Elements(j, PROFILES)| && k < |ConfigsOf(j, i)|
    ensures ConfigsOf(j, i)[k].Obj?
  {
    ConfigAt(j, i, k);
    hide ConfigPaths, ConfigsOf;
    assert ProfileFits(Elements(j, PROFILES)[i]);
    assert ConfigFits(ConfigsOf(j, i)[k]);
  }

  /**
   Whatever the secrets of a payload that is sent: each patch config ends with the merged runbook
   at its own position.
   */
  lemma RunbookArrives(j: Json, decompiled: Decompiled, reported: Json, i: nat, k: nat)
    requires BlueprintOutcome(j, decompiled, reported).Some? && i < |Elements(j, PROFILES)| && k < |ConfigsOf(j, i)|
    ensures MergedFor(j, reported).Some?
    ensures Lookup(Arr(MergedFor(j, reported).value), ConfigPath(i, k)[1..]).Some?
    ensures Lookup(BlueprintOutcome(j, decompiled, reported).value, ConfigPath(i, k))
         == Lookup(Arr(MergedFor(j, reported).value), ConfigPath(i, k)[1..])
  {
    SentPayload(j, decompiled, reported);
    ReportedThere(j, decompiled, reported, i, k);
    hide *;
    FittingConfig(j, i, k);
    TripKeepsRunbooks(j, decompiled, Arr(MergedFor(j, reported).value), i, k);
  }

  /** The payload of an upload that is not given up. */
  lemma SentPayload(j: Json, decompiled: Decompiled, reported: Json)
    requires BlueprintOutcome(j, decompiled, reported).Some?
    ensures MergedFor(j, reported).Some? && ConfigsFit(j)
    ensures BlueprintOutcome(j, decompiled, reported)
         == Some(RoundTrip(WithConfigs(j, Arr(MergedFor(j, reported).value)), Holders(j, decompiled, true),
                           PayloadSites(j, BLUEPRINT_LISTS, [], decompiled)))
  {
    hide Holders, PayloadSites, RoundTrip, WithConfigs, BlueprintOutcome, MergedStatus, TasksOfProfiles, NamesFit,
         Completes, ConfigsFit, AllReported;
    OutcomeIs(j, decompiled, reported);
  }

  lemma TripKeepsRunbooks(j: Json, decompiled: Decompiled, status: Json, i: nat, k: nat)
    requires i < |Elements(j, PROFILES)| && k < |ConfigsOf(j, i)| && ConfigsOf(j, i)[k].Obj?
    ensures Lookup(RoundTrip(WithConfigs(j, status), Holders(j, decompiled, true),
                             PayloadSites(j, BLUEPRINT_LISTS, [], decompiled)),
                   ConfigPath(i, k)) == Some(Reported(status, ConfigPath(i, k)))
  {
    hide Holders, PayloadSites, PatchPayload, StripPayload, Lookup, Elements, WithConfigs, ConfigsOf, ConfigPaths,
         Reported;
    var holders, sites := Holders(j, decompiled, true), PayloadSites(j, BLUEPRINT_LISTS, [], decompiled);
    BlueprintSites(j, decompiled);
    HoldersHavePlaces(j, decompiled, true);
    SecretsMissConfig(WithConfigs(j, status), holders, sites, SecretMap(holders), ConfigPath(i, k));
    Attached(j, status, i, k);
  }

  lemma ReportedThere(j: Json, decompiled: Decompiled, reported: Json, i: nat, k: nat)
    requires BlueprintOutcome(j, decompiled, reported).Some? && i < |Elements(j, PROFILES)| && k < |ConfigsOf(j, i)|
    ensures MergedFor(j, reported).Some?
    ensures Lookup(Arr(MergedFor(j, reported).value), ConfigPath(i, k)[1..])
         == Some(Reported(Arr(MergedFor(j, reported).value), ConfigPath(i, k)))
  {
    hide BlueprintOutcome, MergedStatus, NamesFit, Completes, ConfigsFit, ConfigPaths, TasksOfProfiles, Lookup;
    OutcomeIs(j, decompiled, reported);
    ConfigAt(j, i, k);
  }

  // ----- by name and by position

  /** Profiles are named differently, and so are the configs of each. */
  predicate UniqueNames(profiles: seq<Json>) {
    && (forall i, k | 0 <= i < k < |profiles| :: Text(profiles[i], "name") != Text(profiles[k], "name"))
    && (forall i | 0 <= i < |profiles| :: UniqueConfigs(Elements(profiles[i], CONFIGS.key)))
  }

  predicate UniqueConfigs(configs: seq<Json>) {
    forall i, k | 0 <= i < k < |configs| :: Text(configs[i], "name") != Text(configs[k], "name")
  }

  /** The server reports the profiles and configs it was sent, in the same order. */
  predicate SameOrder(sent: seq<Json>, reported: seq<Json>) {
    && |sent| == |reported|
    && forall i | 0 <= i < |sent| ::
         && Text(sent[i], "name") == Text(reported[i], "name")
         && SameConfigs(Elements(sent[i], CONFIGS.key), Elements(reported[i], CONFIGS.key))
  }

  predicate SameConfigs(sent: seq<Json>, reported: seq<Json>) {
    |sent| == |reported| && forall k | 0 <= k < |sent| :: Text(sent[k], "name") == Text(reported[k], "name")
  }

  function OwnTasks(config: Json): seq<Json> {
    Elements(OrNull(Get(config, "runbook")), TASKS.key)
  }

  lemma {:induction false} ConfigTasksByName(configs: seq<Json>, k: nat)
    requires UniqueConfigs(configs) && k < |configs|
    ensures Text(configs[k], "name") in TasksOfConfigs(configs)
    ensures TasksOfConfigs(configs)[Text(configs[k], "name")] == OwnTasks(configs[k])
  {
    if k < |configs| - 1 {
      ConfigTasksByName(configs[..|configs|-1], k);
    }
  }

  lemma {:induction false} ProfileTasksByName(profiles: seq<Json>, i: nat)
    requires UniqueNames(profiles) && i < |profiles|
    ensures Text(profiles[i], "name") in TasksOfProfiles(profiles)
    ensures TasksOfProfiles(profiles)[Text(profiles[i], "name")] == TasksOfConfigs(Elements(profiles[i], CONFIGS.key))
  {
    hide TasksOfConfigs, UniqueConfigs;
    if i < |profiles| - 1 {
      ProfileTasksByName(profiles[..|profiles|-1], i);
    }
  }

  /** The node four steps below a list of profiles. */
  lemma RunbookAt(profiles: seq<Json>, i: nat, k: nat)
    requires i < |profiles| && k < |Elements(profiles[i], CONFIGS.key)|
    ensures Lookup(Arr(profiles), ConfigPath(i, k)[1..]) == Get(Elements(profiles[i], CONFIGS.key)[k], "runbook")
  {
    var configs := Elements(profiles[i], CONFIGS.key);
    var p := [Idx(i), CONFIGS, Idx(k), RUNBOOK];
    assert ConfigPath(i, k)[1..] == p;
    assert p[1..] == [CONFIGS, Idx(k), RUNBOOK] && p[1..][1..] == [Idx(k), RUNBOOK] && p[1..][1..][1..] == [RUNBOOK];
    assert Child(Arr(profiles), Idx(i)) == Some(profiles[i]) && Child(profiles[i], CONFIGS) == Some(Arr(configs));
    assert Child(Arr(configs), Idx(k)) == Some(configs[k]);
    OneStep(configs[k], RUNBOOK);
    assert Lookup(Arr(configs), [Idx(k), RUNBOOK]) == Lookup(configs[k], [RUNBOOK]);
    assert Lookup(profiles[i], [CONFIGS, Idx(k), RUNBOOK]) == Lookup(Arr(configs), [Idx(k), RUNBOOK]);
    assert Lookup(Arr(profiles), p) == Lookup(profiles[i], [CONFIGS, Idx(k), RUNBOOK]);
  }

  /** The merged config at a position comes from the reported one there and the tasks the user wrote there. */
  lemma MergedAt(profiles: seq<Json>, reported: seq<Json>, services: P.Names, i: nat, k: nat)
    requires UniqueNames(profiles) && SameOrder(profiles, reported)
    requires MergedProfiles(reported, TasksOfProfiles(profiles), services).Some?
    requires i < |profiles| && k < |Elements(profiles[i], CONFIGS.key)|
    ensures k < |Elements(reported[i], CONFIGS.key)|
    ensures var merged := MergedProfiles(reported, TasksOfProfiles(profiles), services).value;
      var here := Elements(profiles[i], CONFIGS.key)[k];
      && |merged| == |reported| && k < |Elements(merged[i], CONFIGS.key)|
      && MergedConfig(Elements(reported[i], CONFIGS.key)[k], map[Text(here, "name") := OwnTasks(here)], services)
         == Some(Elements(merged[i], CONFIGS.key)[k])
  {
    var tasks, configs := TasksOfProfiles(profiles), Elements(profiles[i], CONFIGS.key);
    assert CONFIGS.key == "patch_list";
    assert SameConfigs(configs, Elements(reported[i], CONFIGS.key));
    MergedProfileAt(reported, tasks, services, i);
    ConfigOfProfile(reported[i], tasks, services, k);
    ProfileTasksByName(profiles, i);
    ConfigTasksByName(configs, k);
    hide MergedTasks, TasksOfConfigs, TasksOfProfiles, MergedProfiles, MergedProfile, OwnTasks, Elements;
    assert Text(Elements(reported[i], CONFIGS.key)[k], "name") == Text(configs[k], "name");
  }

  /**
   From the payload the user wrote to the one that is sent back: with unique names, and a server that
   reports the profiles it was sent in order, the runbook of every patch config the server made one
   for is that runbook with its task list merged with exactly the tasks the user wrote there, though
   tasks are found by name and runbooks attached by position.
   */
  lemma MergedRunbookArrives(j: Json, decompiled: Decompiled, reported: Json, i: nat, k: nat)
    requires BlueprintOutcome(j, decompiled, reported).Some?
    requires UniqueNames(Elements(j, PROFILES)) && SameOrder(Elements(j, PROFILES), Elements(reported, PROFILES))
    requires i < |Elements(j, PROFILES)| && k < |ConfigsOf(j, i)|
    requires k < |ConfigsOf(reported, i)| && Truthy(OrNull(Get(ConfigsOf(reported, i)[k], "runbook")))
    ensures var runbook := OrNull(Get(ConfigsOf(reported, i)[k], "runbook"));
      var services := ServicesOf(Elements(reported, SERVICES));
      var system, user := Elements(runbook, TASKS.key), OwnTasks(ConfigsOf(j, i)[k]);
      && services.Some? && MergedTasks(system, user, services.value).Some?
      && Lookup(BlueprintOutcome(j, decompiled, reported).value, ConfigPath(i, k))
         == Some(With(Clean(runbook), TASKS.key, Arr(MergedTasks(system, user, services.value).value)))
  {
    RunbookArrives(j, decompiled, reported, i, k);
    var services := ServicesOf(Elements(reported, SERVICES)).value;
    var profiles, merged := Elements(reported, PROFILES), MergedFor(j, reported).value;
    ConfigAt(j, i, k);
    ConfigAt(reported, i, k);
    MergedAt(Elements(j, PROFILES), profiles, services, i, k);
    RunbookAt(merged, i, k);
    var c := ConfigsOf(reported, i)[k];
    hide MergedStatus, MergedProfiles, BlueprintOutcome, Lookup, ConfigsOf, TasksOfProfiles, OwnTasks, Elements,
         MergedTasks, Clean;
    MergedRunbookOf(c, ConfigsOf(j, i)[k], services);
  }

  lemma MergedRunbookOf(c: Json, own: Json, services: P.Names)
    requires Truthy(OrNull(Get(c, "runbook")))
             && MergedConfig(c, map[Text(own, "name") := OwnTasks(own)], services).Some?
    ensures var runbook := OrNull(Get(c, "runbook"));
      var now := MergedConfig(c, map[Text(own, "name") := OwnTasks(own)], services).value;
      var tasks := MergedTasks(Elements(runbook, TASKS.key), OwnTasks(own), services);
      tasks.Some? && Get(now, "runbook") == Some(With(Clean(runbook), TASKS.key, Arr(tasks.value)))
  {
    hide MergedTasks, OwnTasks, Clean;
  }

  /** And seen as tasks, it is the merge whose graph `PatchConfigs` is about. */
  lemma MergedGraphArrives(j: Json, decompiled: Decompiled, reported: Json, i: nat, k: nat)
    requires BlueprintOutcome(j, decompiled, reported).Some?
    requires UniqueNames(Elements(j, PROFILES)) && SameOrder(Elements(j, PROFILES), Elements(reported, PROFILES))
    requires i < |Elements(j, PROFILES)| && k < |ConfigsOf(j, i)|
    requires k < |ConfigsOf(reported, i)| && Truthy(OrNull(Get(ConfigsOf(reported, i)[k], "runbook")))
    ensures var system := TaskViews(Elements(OrNull(Get(ConfigsOf(reported, i)[k], "runbook")), TASKS.key));
      var user, services := TaskViews(OwnTasks(ConfigsOf(j, i)[k])), ServicesOf(Elements(reported, SERVICES));
      var sent := Lookup(BlueprintOutcome(j, decompiled, reported).value, ConfigPath(i, k));
      && sent.Some? && services.Some? && P.Rooted(system, user) && P.Closed(user)
      && RunbookView(sent.value) == P.Runbook(P.MergedTasks(system, user, services.value), None, None)
  {
    MergedRunbookArrives(j, decompiled, reported, i, k);
    var runbook, services := OrNull(Get(ConfigsOf(reported, i)[k], "runbook")),
          ServicesOf(Elements(reported, SERVICES)).value;
    var system, user := Elements(runbook, TASKS.key), OwnTasks(ConfigsOf(j, i)[k]);
    var tasks := MergedTasks(system, user, services).value;
    hide MergedTasks, BlueprintOutcome, Lookup, ConfigsOf, OwnTasks, Elements, MergeFits, P.Rooted, P.Closed,
         P.MergedTasks, TaskViews, RunbookView, Clean;
    MergedTasksExactly(system, user, services);
    FittingIsMergeable(system, user, services);
    MergedTasksView(system, user, services);
    HasTasks(runbook, system);
    RunbookViewOf(runbook, tasks);
  }

  lemma HasTasks(runbook: Json, system: seq<Json>)
    requires Elements(runbook, TASKS.key) == system && TaskViews(system) != []
    ensures runbook.Obj?
  {
  }

  // ----- what is in the runbook that arrives

  lemma {:induction false} ServicesAreLast(services: seq<Json>, name: string)
    requires ServicesOf(services).Some?
    ensures name in ServicesOf(services).value <==> exists k | 0 <= k < |services| :: Text(services[k], "name") == name
    ensures name in ServicesOf(services).value ==> LastService(services, name, ServicesOf(services).value[name])
  {
    hide Text, LastService, Get;
    if services != [] {
      var n := |services| - 1;
      var before, s := services[..n], services[n];
      assert services == before + [s];
      ServicesAreLast(before, name);
      if Text(s, "name") == name {
        NewService(before, s);
      } else if name in ServicesOf(before).value {
        LastServiceStays(before, s, name, ServicesOf(before).value[name]);
      }
      assert forall k | 0 <= k < n :: before[k] == services[k];
    }
  }

  /** The target of the task carries the uuid of the last service reported under its name. */
  ghost predicate TargetReported(m: Json, t: Json, services: seq<Json>) {
    var target := Get(t, "target_any_local_reference");
    target.Some? ==>
      && Get(m, "target_any_local_reference").Some?
      && exists uuid ::
           LastService(services, Text(target.value, "name"), uuid)
           && Get(Get(m, "target_any_local_reference").value, "uuid") == Some(Str(uuid))
  }

  lemma TargetIsReported(m: Json, t: Json, services: seq<Json>)
    requires ServicesOf(services).Some? && OwnMerged(m, t, ServicesOf(services).value)
    ensures TargetReported(m, t, services)
  {
    hide SameExcept, LastService, ServicesOf;
    var target := Get(t, "target_any_local_reference");
    if target.Some? {
      ServicesAreLast(services, Text(target.value, "name"));
    }
  }

  /**
   The reported tasks and after them the user's own in order, each for the service reported under
   the name its target has.
   */
  ghost predicate TasksMerged(tasks: seq<Json>, system: seq<Json>, user: seq<Json>, services: seq<Json>, at: seq<nat>) {
    && OwnPlaces(user, at) && |tasks| == |system| + |at|
    && (forall n | 1 <= n < |system| :: SameExcept(tasks[n], system[n], {"state", "message_list"}))
    && (forall n | 0 <= n < |at| ::
          && SameExcept(tasks[|system| + n], user[at[n]], {"target_any_local_reference", "state", "message_list"})
          && TargetReported(tasks[|system| + n], user[at[n]], services))
  }

  lemma TasksAreMerged(system: seq<Json>, user: seq<Json>, services: seq<Json>) returns (at: seq<nat>)
    requires ServicesOf(services).Some? && MergedTasks(system, user, ServicesOf(services).value).Some?
    ensures TasksMerged(MergedTasks(system, user, ServicesOf(services).value).value, system, user, services, at)
  {
    hide MergedTasks, ServicesOf, SameExcept, OwnMerged, TargetReported, Get, Elements, IsOwn;
    var tasks := MergedTasks(system, user, ServicesOf(services).value).value;
    at := OwnTasksMerged(system, user, ServicesOf(services).value);
    forall n | 0 <= n < |at|
      ensures SameExcept(tasks[|system| + n], user[at[n]], {"target_any_local_reference", "state", "message_list"})
      ensures TargetReported(tasks[|system| + n], user[at[n]], services)
    {
      TargetIsReported(tasks[|system| + n], user[at[n]], services);
      OwnMergedKeeps(tasks[|system| + n], user[at[n]], ServicesOf(services).value);
    }
  }

  /**
   Task by task: with unique names and one order, what the runbook a patch config is sent with holds,
   in terms of the tasks written and reported there and of the services reported.
   */
  lemma MergedTasksArrive(j: Json, decompiled: Decompiled, reported: Json, i: nat, k: nat) returns (at: seq<nat>)
    requires BlueprintOutcome(j, decompiled, reported).Some?
    requires UniqueNames(Elements(j, PROFILES)) && SameOrder(Elements(j, PROFILES), Elements(reported, PROFILES))
    requires i < |Elements(j, PROFILES)| && k < |ConfigsOf(j, i)|
    requires k < |ConfigsOf(reported, i)| && Truthy(OrNull(Get(ConfigsOf(reported, i)[k], "runbook")))
    ensures var system := Elements(OrNull(Get(ConfigsOf(reported, i)[k], "runbook")), "task_definition_list");
      var sent := Lookup(BlueprintOutcome(j, decompiled, reported).value, ConfigPath(i, k));
      && sent.Some?
      && TasksMerged(Elements(sent.value, "task_definition_list"), system, OwnTasks(ConfigsOf(j, i)[k]),
                     Elements(reported, "service_definition_list"), at)
  {
    MergedRunbookArrives(j, decompiled, reported, i, k);
    var runbook := OrNull(Get(ConfigsOf(reported, i)[k], "runbook"));
    var services := Elements(reported, SERVICES);
    var system, user := Elements(runbook, TASKS.key), OwnTasks(ConfigsOf(j, i)[k]);
    hide *;
    at := TasksAreMerged(system, user, services);
    RunbookIsObject(runbook, system, user, ServicesOf(services).value);
    WithTasks(Clean(runbook), MergedTasks(system, user, ServicesOf(services).value).value);
  }

  lemma OwnMergedKeeps(m: Json, t: Json, services: P.Names)
    requires OwnMerged(m, t, services)
    ensures SameExcept(m, t, {"target_any_local_reference", "state", "message_list"})
  {
  }

  lemma WithTasks(runbook: Json, tasks: seq<Json>)
    ensures runbook.Obj? ==> Elements(With(runbook, TASKS.key, Arr(tasks)), "task_definition_list") == tasks
  {
  }

  lemma RunbookIsObject(runbook: Json, system: seq<Json>, user: seq<Json>, services: P.Names)
    requires system == Elements(runbook, TASKS.key) && MergedTasks(system, user, services).Some?
    ensures Clean(runbook).Obj?
  {
  }
}
