/**
 Blueprints: secrets and patch-config runbooks are taken out; the runbooks the server made for the
 configs are extended by the user's tasks, and all is put back into what the server returned.
 */
module BlueprintUpload {
  import opened Options
  import opened JsonTree
  import opened SecretSites
  import opened SecretWalk
  import opened SecretRoundTrip
  import opened SecretPlaces
  import opened SecretPayload
  import opened SecretLaw
  import opened SecretEntities
  import opened StripPasses
  import opened SecretStripper
  import opened SecretPatcher
  import ConfigMerge
  import P = PatchConfigs

  const PROFILES := "app_profile_list"
  const CONFIGS := Key("patch_list")
  const RUNBOOK := Key("runbook")

  function ConfigPath(i: nat, k: nat): Path {
    [Key(PROFILES), Idx(i), CONFIGS, Idx(k), RUNBOOK]
  }

  /** The runbooks of the first `n` patch configs of profile `i`. */
  function RowPaths(i: nat, n: nat): (paths: seq<Path>)
    ensures |paths| == n && forall k | 0 <= k < n :: paths[k] == ConfigPath(i, k)
  {
    if n == 0 then [] else RowPaths(i, n - 1) + [ConfigPath(i, n - 1)]
  }

  function ConfigPaths(profiles: seq<Json>): seq<Path> {
    if profiles == [] then []
    else
      var n := |profiles| - 1;
      ConfigPaths(profiles[..n]) + RowPaths(n, |Elements(profiles[n], CONFIGS.key)|)
  }

  function Removals(paths: seq<Path>): seq<Edit> {
    if paths == [] then [] else Removals(paths[..|paths|-1]) + [Edit(paths[|paths|-1], None)]
  }

  /** The runbook at the same position in the profile list the server reports. */
  function Reported(status: Json, p: Path): Json {
    if p == [] then Null else Node(status, p[1..])
  }

  function Attachments(paths: seq<Path>, status: Json): seq<Edit> {
    if paths == [] then []
    else Attachments(paths[..|paths|-1], status) + [Edit(paths[|paths|-1], Some(Reported(status, paths[|paths|-1])))]
  }

  /** `strip_patch_config_tasks` on the tree. */
  function WithoutConfigs(j: Json): Json {
    Apply(j, Removals(ConfigPaths(Elements(j, PROFILES))))
  }

  /** The last loop of `add_patch_config_tasks`. */
  function WithConfigs(j: Json, status: Json): Json {
    Apply(j, Attachments(ConfigPaths(Elements(j, PROFILES)), status))
  }

  // ----- what the passes over patch configs need to find

  predicate ConfigFits(c: Json) {
    var runbook := Get(c, RUNBOOK.key);
    c.Obj? && ObjOrAbsent(runbook) && Iterable(Get(OrNull(runbook), TASKS.key))
  }

  /** `strip_patch_config_tasks` raises no error. */
  predicate ConfigsFit(j: Json) {
    Iterable(Get(j, PROFILES)) && forall p | p in Elements(j, PROFILES) :: ProfileFits(p)
  }

  predicate ProfileFits(p: Json) {
    p.Obj? && Iterable(Get(p, CONFIGS.key)) && forall c | c in Elements(p, CONFIGS.key) :: ConfigFits(c)
  }

  /** The loop that attaches runbooks passes all profiles and configs of the spec. */
  predicate Attachable(j: Json) {
    Iterable(Get(j, PROFILES)) && forall p | p in Elements(j, PROFILES) :: TakesConfigs(p)
  }

  predicate TakesConfigs(p: Json) {
    p.Obj? && Iterable(Get(p, CONFIGS.key)) && forall c | c in Elements(p, CONFIGS.key) :: c.Obj?
  }

  /** Every config has a runbook at its position in the list the server reported. */
  predicate AllReported(paths: seq<Path>, status: Json) {
    forall p: Path | p in paths :: p != [] && Lookup(status, p[1..]).Some?
  }

  /** `service_name_uuid_map` */
  function ServicesOf(services: seq<Json>): Option<P.Names> {
    if services == [] then Some(map[])
    else
      var s := services[|services|-1];
      match ServicesOf(services[..|services|-1])
      case None => None
      case Some(before) =>
        if Get(s, "name").None? || Get(s, "uuid").None? then None else Some(before[Text(s, "name") := Text(s, "uuid")])
  }

  const SERVICES := "service_definition_list"

  /** The reported profiles with the user's tasks merged in; None when the merge raises an error or gives up. */
  function MergedStatus(tasks: map<string, map<string, seq<Json>>>, reported: Json): Option<seq<Json>> {
    if !reported.Obj? || !Iterable(Get(reported, SERVICES)) || !Iterable(Get(reported, PROFILES)) then None
    else
      match ServicesOf(Elements(reported, SERVICES))
      case None => None
      case Some(services) => ConfigMerge.MergedProfiles(Elements(reported, PROFILES), tasks, services)
  }

  /** The part of the upload after the server answered, on the payload `t` it was sent. */
  function Completed(t: Json, reported: Json, secrets: map<string, Json>, records: seq<SecretRecord>,
                     kept: seq<KeptRecord>): Option<Json> {
    if !ConfigsFit(t) then None
    else
      var u := WithoutConfigs(t);
      match MergedStatus(TasksOfProfiles(Elements(t, PROFILES)), reported)
      case None => None
      case Some(merged) =>
        if !Attachable(u) || !AllReported(ConfigPaths(Elements(u, PROFILES)), Arr(merged)) then None
        else if !PatchRuns(WithConfigs(u, Arr(merged)), secrets, records, kept) then None
        else Some(PatchPayload(WithConfigs(u, Arr(merged)), secrets, records, kept))
  }

  /** The payload a blueprint is created with; None when an error comes before. */
  function CreatedBlueprint(j: Json, decompiled: Decompiled): Option<Json> {
    var holders, sites := Holders(j, decompiled, true), PayloadSites(j, BLUEPRINT_LISTS, [], decompiled);
    if !NamesStrippable(j, true) || !Completes(sites) then None else Configless(StripPayload(j, holders, sites))
  }

  function Configless(t: Json): Option<Json> {
    if ConfigsFit(t) then Some(WithoutConfigs(t)) else None
  }

  /**
   The PUT payload of an upload, with a server that echoes the spec and reports profiles and services
   in `reported`; None when the client raises an error or gives up.
   */
  function BlueprintOutcome(j: Json, decompiled: Decompiled, reported: Json): Option<Json> {
    var holders, sites := Holders(j, decompiled, true), PayloadSites(j, BLUEPRINT_LISTS, [], decompiled);
    if !NamesStrippable(j, true) || !Completes(sites) then None
    else Completed(StripPayload(j, holders, sites), reported, SecretMap(holders), Records(sites), Kept(sites))
  }

  // ----- config paths

  predicate IsConfigPath(q: Path) {
    |q| == 5 && q[0] == Key(PROFILES) && q[1].Idx? && q[2] == CONFIGS && q[3].Idx? && q[4] == RUNBOOK
  }

  lemma ConfigsDiverge(p: Path, q: Path)
    requires IsConfigPath(p) && IsConfigPath(q) && p != q
    ensures Diverge(p, q)
  {
    if p[1] == q[1] {
      assert p[3] != q[3];
      assert p == p[..3] + [p[3]] + p[4..] && q == p[..3] + [q[3]] + q[4..];
      DivergeAt(p[..3], p[3], q[3], p[4..], q[4..]);
    } else {
      assert p == p[..1] + [p[1]] + p[2..] && q == p[..1] + [q[1]] + q[2..];
      DivergeAt(p[..1], p[1], q[1], p[2..], q[2..]);
    }
  }

  ghost predicate AllConfigs(paths: seq<Path>, n: nat) {
    && (forall p: Path | p in paths :: IsConfigPath(p) && p[1].idx < n)
    && (forall i, k | 0 <= i < |paths| && 0 <= k < |paths| && i != k :: paths[i] != paths[k])
  }

  lemma {:induction false} ConfigPathsFit(profiles: seq<Json>)
    ensures AllConfigs(ConfigPaths(profiles), |profiles|)
  {
    if profiles != [] {
      var n := |profiles| - 1;
      ConfigPathsFit(profiles[..n]);
      var before, row := ConfigPaths(profiles[..n]), RowPaths(n, |Elements(profiles[n], CONFIGS.key)|);
      forall i, k | 0 <= i < |before + row| && 0 <= k < |before + row| && i != k
        ensures (before + row)[i] != (before + row)[k]
      {
        if i < |before| && k >= |before| {
          assert before[i] in before;
        } else if i >= |before| && k < |before| {
          assert before[k] in before;
        } else if i >= |before| {
          assert row[i-|before|][3] != row[k-|before|][3];
        }
      }
    }
  }

  ghost predicate Apartness(paths: seq<Path>) {
    && (forall p: Path | p in paths :: p != [] && p[|p|-1].Key?)
    && (forall i, k | 0 <= i < |paths| && 0 <= k < |paths| && i != k :: Diverge(paths[i], paths[k]))
  }

  lemma ConfigsApart(paths: seq<Path>, n: nat)
    requires AllConfigs(paths, n)
    ensures Apartness(paths)
  {
    forall i, k | 0 <= i < |paths| && 0 <= k < |paths| && i != k ensures Diverge(paths[i], paths[k]) {
      assert paths[i] in paths && paths[k] in paths;
      ConfigsDiverge(paths[i], paths[k]);
    }
  }

  lemma {:induction false} ConfigEditPaths(paths: seq<Path>, status: Json)
    ensures forall e <- Removals(paths) + Attachments(paths, status) :: e.path in paths
  {
    if paths != [] {
      ConfigEditPaths(paths[..|paths|-1], status);
      assert paths == paths[..|paths|-1] + [paths[|paths|-1]];
    }
  }

  /** Attaching every runbook makes it irrelevant that they were removed before. */
  lemma {:induction false} RemoveThenAttach(j: Json, paths: seq<Path>, status: Json)
    requires Apartness(paths)
    ensures Apply(Apply(j, Removals(paths)), Attachments(paths, status)) == Apply(j, Attachments(paths, status))
  {
    if paths != [] {
      var n := |paths| - 1;
      var before, p := paths[..n], paths[n];
      var gone, back := [Edit(p, None)], [Edit(p, Some(Reported(status, p)))];
      RemoveThenAttach(j, before, status);
      ConfigEditPaths(before, status);
      forall e <- gone ensures Avoid(Attachments(before, status), e.path) {
        forall d <- Attachments(before, status) ensures Diverge(d.path, e.path) {
          assert d in Removals(before) + Attachments(before, status);
        }
      }
      ApplySplit(j, Removals(before), gone);
      ApplySplit(Apply(Apply(j, Removals(before)), gone), Attachments(before, status), back);
      ApplyCommute(Apply(j, Removals(before)), Attachments(before, status), gone);
      ApplySplit(j, Attachments(before, status), back);
      var k := Apply(j, Attachments(before, status));
      OneEdit(k, gone[0]);
      OneEdit(Write(k, p, None), back[0]);
      OneEdit(k, back[0]);
      WriteTwice(k, p, None, Reported(status, p));
    }
  }

  // ----- secrets and configs do not meet

  /** Neither a profile's name nor below its patch configs. */
  predicate OffConfigs(q: Path) {
    q != [] && (q[0] == Key(PROFILES) ==> |q| >= 3 && q[1].Idx? && q[2].Key? && q[2] != CONFIGS && q[2] != Key("name"))
  }

  lemma OffConfigsDiverges(p: Path, q: Path)
    requires OffConfigs(p) && IsConfigPath(q)
    ensures Diverge(p, q) && Diverge(q, p)
  {
    if p[0] == q[0] {
      if p[1] == q[1] {
        assert p[..2] == q[..2];
        HeadsDiverge(q[..2], p, q);
      } else {
        assert p[..1] == q[..1];
        HeadsDiverge(q[..1], p, q);
      }
    }
    DivergeSymmetric(p, q);
  }

  lemma PlacedOffConfigs(s: Site, p: Path)
    requires InObject(s, p) && FiledInObject(s, p) && p <= s.filed
    requires |p| == 2 && p[0].Key? && p[1].Idx?
    ensures OffConfigs(s.path) && OffConfigs(s.filed)
  {
    assert s.path[0] == p[0] && s.filed[0] == p[0] && s.path[1] == p[1];
    if s.path == p + [Key("authentication"), Key("password")] {
      assert s.path[2] == Key("authentication");
    }
    if s.filed != s.path {
      if p + [Key("runbook")] <= s.filed {
        assert s.filed[1] == p[1] && s.filed[2] == Key("runbook");
      } else {
        assert s.filed[1] == p[1] && s.filed[2] == Key("authentication");
      }
    }
  }

  lemma {:induction false} RowsOffConfigs(rows: seq<Json>, k: string, decompiled: Decompiled)
    ensures forall s <- RowSites(rows, k, decompiled) :: OffConfigs(s.path) && OffConfigs(s.filed)
  {
    hide AllSites;
    if rows != [] {
      var n := |rows| - 1;
      RowsOffConfigs(rows[..n], k, decompiled);
      AllSitesPlaced(rows[n], [Key(k), Idx(n)], decompiled, k);
      forall s <- AllSites(rows[n], [Key(k), Idx(n)], decompiled, k) ensures OffConfigs(s.path) && OffConfigs(s.filed) {
        PlacedOffConfigs(s, [Key(k), Idx(n)]);
      }
    }
  }

  lemma {:induction false} ListsOffConfigs(j: Json, lists: seq<string>, decompiled: Decompiled)
    ensures forall s <- ListsSites(j, lists, decompiled) :: OffConfigs(s.path) && OffConfigs(s.filed)
  {
    hide RowSites;
    if lists != [] {
      var n := |lists| - 1;
      ListsOffConfigs(j, lists[..n], decompiled);
      RowsOffConfigs(Elements(j, lists[n]), lists[n], decompiled);
    }
  }

  ghost predicate ConfigEdits(edits: seq<Edit>) {
    forall e <- edits :: IsConfigPath(e.path)
  }

  /** Writing patch configs neither changes what the strip finds nor where it finds it. */
  lemma ConfigsLeaveHolders(j: Json, edits: seq<Edit>, decompiled: Decompiled)
    requires ConfigEdits(edits)
    ensures Holders(Apply(j, edits), decompiled, true) == Holders(j, decompiled, true)
  {
    hide IsModified, CredentialHolders;
    RootKept(j, edits, CREDENTIALS);
    RootKept(j, edits, "authentication");
  }

  lemma RootKept(j: Json, edits: seq<Edit>, k: string)
    requires ConfigEdits(edits) && k != PROFILES
    ensures Get(Apply(j, edits), k) == Get(j, k)
  {
    forall e <- edits ensures Diverge(e.path, [Key(k)]) {
    }
    ApplyFrame(j, edits, [Key(k)]);
    OneStep(j, Key(k));
    OneStep(Apply(j, edits), Key(k));
  }

  ghost predicate SitesOffConfigs(sites: seq<Site>) {
    forall s <- sites :: OffConfigs(s.path) && OffConfigs(s.filed)
  }

  lemma ConfigsLeaveSites(j: Json, edits: seq<Edit>, sites: seq<Site>)
    requires ConfigEdits(edits) && SitesOffConfigs(sites) && WellPlaced(j, sites)
    ensures WellPlaced(Apply(j, edits), sites)
    ensures forall s <- sites :: Fitting(Apply(j, edits), s) == Fitting(j, s)
  {
    hide Apart, Clear;
    forall s <- sites ensures Fitting(Apply(j, edits), s) == Fitting(j, s) && Truthful(Apply(j, edits), s) {
      ConfigsLeave(j, edits, s.path);
      ConfigsLeave(j, edits, s.filed);
      FittingSame(j, Apply(j, edits), s);
    }
  }

  /** Nor whether the patch can walk to it. */
  lemma ConfigsLeaveWalks(j: Json, edits: seq<Edit>, sites: seq<Site>)
    requires ConfigEdits(edits) && SitesOffConfigs(sites)
    ensures AllWalk(Apply(j, edits), sites) == AllWalk(j, sites)
  {
    hide OffConfigs, IsConfigPath, Walks;
    forall s <- sites ensures Walks(Apply(j, edits), s.filed) == Walks(j, s.filed) {
      forall e <- edits ensures Diverge(e.path, s.filed) {
        OffConfigsDiverges(s.filed, e.path);
      }
      WalksApply(j, edits, s.filed);
    }
  }

  lemma ConfigsLeave(j: Json, edits: seq<Edit>, q: Path)
    requires ConfigEdits(edits) && OffConfigs(q)
    ensures Lookup(Apply(j, edits), q) == Lookup(j, q)
  {
    forall e <- edits ensures Diverge(e.path, q) {
      OffConfigsDiverges(q, e.path);
    }
    ApplyFrame(j, edits, q);
  }

  /** Configs can be written before the secrets are stripped. */
  lemma ConfigsFirst(j: Json, edits: seq<Edit>, holders: seq<Holder>, sites: seq<Site>)
    requires ConfigEdits(edits) && SitesOffConfigs(sites)
    requires forall h <- holders :: HolderPlace(h.path)
    ensures Apply(StripPayload(j, holders, sites), edits) == StripPayload(Apply(j, edits), holders, sites)
  {
    hide HolderStrip, StripEdits;
    HoldersMissConfigs(holders, edits);
    SitesMissConfigs(sites, edits);
    ApplyCommute(Apply(j, HolderStrip(holders)), StripEdits(sites), edits);
    ApplyCommute(j, HolderStrip(holders), edits);
  }

  lemma HoldersMissConfigs(holders: seq<Holder>, edits: seq<Edit>)
    requires ConfigEdits(edits) && forall h <- holders :: HolderPlace(h.path)
    ensures Separate(HolderStrip(holders), edits)
  {
    forall e <- edits ensures Avoid(HolderStrip(holders), e.path) {
      forall h <- holders ensures Diverge(h.path, e.path) {
      }
      HoldersMiss(holders, map[], e.path);
    }
  }

  lemma SitesMissConfigs(sites: seq<Site>, edits: seq<Edit>)
    requires ConfigEdits(edits) && SitesOffConfigs(sites)
    ensures Separate(StripEdits(sites), edits) && Separate(Marks(sites), edits) && Separate(KeptMarks(sites), edits)
  {
    forall e <- edits
      ensures Avoid(StripEdits(sites), e.path) && Avoid(Marks(sites), e.path) && Avoid(KeptMarks(sites), e.path)
    {
      forall s <- sites ensures Diverge(s.path, e.path) {
        OffConfigsDiverges(s.path, e.path);
      }
      EditsMiss(sites, e.path);
    }
  }

  /** Configs can be written after the marks. */
  lemma ConfigsLast(j: Json, edits: seq<Edit>, sites: seq<Site>)
    requires ConfigEdits(edits) && SitesOffConfigs(sites)
    ensures Marked(Apply(j, edits), sites) == Apply(Marked(j, sites), edits)
  {
    hide KeptMarks, Marks, Apply;
    SitesMissConfigs(sites, edits);
    ApplyCommute(j, KeptMarks(sites), edits);
    ApplyCommute(Apply(j, KeptMarks(sites)), Marks(sites), edits);
  }

  // ----- the profile list keeps its shape while secrets are out

  /** Profiles and configs are counted the same. */
  ghost predicate SameShape(a: seq<Json>, b: seq<Json>) {
    |a| == |b| && forall i | 0 <= i < |a| :: |Elements(a[i], CONFIGS.key)| == |Elements(b[i], CONFIGS.key)|
  }

  lemma {:induction false} ShapePaths(a: seq<Json>, b: seq<Json>)
    requires SameShape(a, b)
    ensures ConfigPaths(a) == ConfigPaths(b)
  {
    if a != [] {
      ShapePaths(a[..|a|-1], b[..|b|-1]);
    }
  }

  /** A write that keeps the shape of the profile list. */
  predicate Shapely(e: Edit) {
    || OffConfigs(e.path)
    || IsConfigPath(e.path)
  }

  lemma {:induction false} ShapeKept(j: Json, edits: seq<Edit>)
    requires forall e <- edits :: Shapely(e)
    ensures SameShape(Elements(Apply(j, edits), PROFILES), Elements(j, PROFILES))
    decreases |edits|
  {
    if edits != [] {
      var e := edits[0];
      assert e in edits;
      WriteShape(j, e);
      ShapeKept(Write(j, e.path, e.value), edits[1..]);
    }
  }

  lemma WriteShape(j: Json, e: Edit)
    requires Shapely(e)
    ensures SameShape(Elements(Write(j, e.path, e.value), PROFILES), Elements(j, PROFILES))
  {
    if e.path[0] == Key(PROFILES) && Child(j, e.path[0]).Some? {
      var profiles := Child(j, e.path[0]).value;
      var rest := e.path[1..];
      assert Write(j, e.path, e.value) == PutChild(j, e.path[0], Some(Write(profiles, rest, e.value)));
      if profiles.Arr? && rest[0].idx < |profiles.items| {
        var profile := profiles.items[rest[0].idx];
        assert Write(profiles, rest, e.value) == PutChild(profiles, rest[0], Some(Write(profile, rest[1..], e.value)));
        WriteProfile(profile, rest[1..], e.value);
      }
    }
  }

  lemma {:induction false} WriteProfile(profile: Json, p: Path, v: Option<Json>)
    requires p != []
    requires p[0] != CONFIGS || (|p| == 3 && p[1].Idx?)
    ensures |Elements(Write(profile, p, v), CONFIGS.key)| == |Elements(profile, CONFIGS.key)|
  {
    if p[0] == CONFIGS && Child(profile, CONFIGS).Some? {
      var configs := Child(profile, CONFIGS).value;
      assert Write(profile, p, v) == PutChild(profile, CONFIGS, Some(Write(configs, p[1..], v)));
      ArrayKept(configs, p[1..], v);
    }
  }

  lemma StripShape(j: Json, holders: seq<Holder>, sites: seq<Site>)
    requires SitesOffConfigs(sites) && forall h <- holders :: HolderPlace(h.path)
    ensures SameShape(Elements(StripPayload(j, holders, sites), PROFILES), Elements(j, PROFILES))
    ensures ConfigPaths(Elements(StripPayload(j, holders, sites), PROFILES)) == ConfigPaths(Elements(j, PROFILES))
  {
    var edits := HolderStrip(holders) + StripEdits(sites);
    HoldersShapely(holders);
    SitesShapely(sites);
    hide Shapely, HolderStrip, StripEdits, Elements, Apply, SameShape, ConfigPaths;
    ApplySplit(j, HolderStrip(holders), StripEdits(sites));
    ShapeKept(j, edits);
    ShapePaths(Elements(Apply(j, edits), PROFILES), Elements(j, PROFILES));
  }

  lemma HoldersShapely(holders: seq<Holder>)
    requires forall h <- holders :: HolderPlace(h.path)
    ensures forall e <- HolderStrip(holders) :: Shapely(e)
  {
    forall e <- HolderStrip(holders) ensures Shapely(e) {
      HolderEdits(holders, map[]);
      assert e in HolderStrip(holders) + HolderPatch(holders, map[]);
      var h :| h in holders && e.path == h.path;
    }
  }

  lemma SitesShapely(sites: seq<Site>)
    requires SitesOffConfigs(sites)
    ensures forall e <- StripEdits(sites) :: Shapely(e)
  {
    forall e <- StripEdits(sites) ensures Shapely(e) {
      var s := EditsOfSites(sites, e);
      var x := OfSiteSuffix(e, s);
    }
  }

  lemma RemovalShape(j: Json)
    ensures ConfigPaths(Elements(WithoutConfigs(j), PROFILES)) == ConfigPaths(Elements(j, PROFILES))
  {
    var paths := ConfigPaths(Elements(j, PROFILES));
    ConfigPathsFit(Elements(j, PROFILES));
    ConfigEditPaths(paths, Null);
    forall e <- Removals(paths) ensures Shapely(e) {
      assert e in Removals(paths) + Attachments(paths, Null);
    }
    ShapeKept(j, Removals(paths));
    ShapePaths(Elements(WithoutConfigs(j), PROFILES), Elements(j, PROFILES));
  }

  // ----- end to end

  /** Removing and attaching configs, as one list of writes on the original payload. */
  lemma ConfigsTogether(j: Json, holders: seq<Holder>, sites: seq<Site>, status: Json)
    requires SitesOffConfigs(sites) && forall h <- holders :: HolderPlace(h.path)
    ensures WithConfigs(WithoutConfigs(StripPayload(j, holders, sites)), status)
         == StripPayload(WithConfigs(j, status), holders, sites)
    ensures ConfigEdits(Attachments(ConfigPaths(Elements(j, PROFILES)), status))
  {
    hide StripPayload, Removals, Attachments, ConfigPaths;
    var paths := ConfigPaths(Elements(j, PROFILES));
    var t := StripPayload(j, holders, sites);
    ConfigPathsFit(Elements(j, PROFILES));
    ConfigsApart(paths, |Elements(j, PROFILES)|);
    ConfigEditPaths(paths, status);
    StripShape(j, holders, sites);
    RemovalShape(t);
    RemoveThenAttach(t, paths, status);
    AttachmentsAreConfigs(paths, status);
    ConfigsFirst(j, Attachments(paths, status), holders, sites);
  }

  lemma AttachmentsAreConfigs(paths: seq<Path>, status: Json)
    requires forall p <- paths :: IsConfigPath(p)
    ensures ConfigEdits(Attachments(paths, status))
  {
    ConfigEditPaths(paths, status);
    forall e <- Attachments(paths, status) ensures IsConfigPath(e.path) {
      assert e in Removals(paths) + Attachments(paths, status);
    }
  }

  lemma BlueprintSites(j: Json, decompiled: Decompiled)
    ensures var sites := PayloadSites(j, BLUEPRINT_LISTS, [], decompiled);
      Fitted(j, sites) && SitesOff(sites) && SitesOffConfigs(sites)
  {
    hide ListsSites;
    BlueprintNames();
    PayloadWellPlaced(j, BLUEPRINT_LISTS, [], decompiled);
    ListsOffConfigs(j, BLUEPRINT_LISTS, decompiled);
  }

  // ----- the passes find in the stripped tree what they found in the original

  lemma ConfigEditsHarmless(edits: seq<Edit>)
    requires ConfigEdits(edits)
    ensures forall e <- edits :: Harmless(e)
  {
  }

  /** Writing or deleting one runbook leaves what the attaching loop needs. */
  lemma AttachableStays(j: Json, e: Edit)
    requires IsConfigPath(e.path)
    ensures Attachable(Write(j, e.path, e.value)) == Attachable(j)
  {
    var k := Write(j, e.path, e.value);
    var rest := e.path[1..];
    if Child(j, e.path[0]).Some? {
      var profiles := Child(j, e.path[0]).value;
      assert k == PutChild(j, e.path[0], Some(Write(profiles, rest, e.value)));
      if profiles.Arr? && rest[0].idx < |profiles.items| {
        var i, profile := rest[0].idx, profiles.items[rest[0].idx];
        var now := Write(profile, rest[1..], e.value);
        assert Write(profiles, rest, e.value) == Arr(profiles.items[i := now]);
        TakesConfigsStays(profile, rest[1..], e.value);
        OneOfMany(profiles.items, i, now);
      }
    }
  }

  lemma OneOfMany(items: seq<Json>, i: nat, now: Json)
    requires i < |items| && TakesConfigs(now) == TakesConfigs(items[i])
    ensures (forall p | p in items[i := now] :: TakesConfigs(p)) <==> (forall p | p in items :: TakesConfigs(p))
  {
    hide TakesConfigs;
    var after := items[i := now];
    assert forall k | 0 <= k < |items| :: TakesConfigs(after[k]) == TakesConfigs(items[k]);
    assert (forall p | p in after :: TakesConfigs(p)) <==> forall k | 0 <= k < |after| :: TakesConfigs(after[k]);
    assert (forall p | p in items :: TakesConfigs(p)) <==> forall k | 0 <= k < |items| :: TakesConfigs(items[k]);
  }

  lemma {:induction false} TakesConfigsStays(profile: Json, p: Path, v: Option<Json>)
    requires |p| == 3 && p[0] == CONFIGS && p[1].Idx? && p[2] == RUNBOOK
    ensures TakesConfigs(Write(profile, p, v)) == TakesConfigs(profile)
  {
    var now := Write(profile, p, v);
    if Child(profile, CONFIGS).Some? {
      var configs := Child(profile, CONFIGS).value;
      assert now == PutChild(profile, CONFIGS, Some(Write(configs, p[1..], v)));
      if configs.Arr? && p[1].idx < |configs.items| {
        var k, config := p[1].idx, configs.items[p[1].idx];
        var after := Write(config, p[2..], v);
        assert p[1..][1..] == p[2..] && p[2..] == [RUNBOOK];
        assert after == PutChild(config, RUNBOOK, v);
        assert Write(configs, p[1..], v) == Arr(configs.items[k := after]);
        var list := configs.items[k := after];
        assert forall m | 0 <= m < |list| :: list[m].Obj? == configs.items[m].Obj?;
        assert (forall c | c in list :: c.Obj?) <==> forall m | 0 <= m < |list| :: list[m].Obj?;
        assert (forall c | c in configs.items :: c.Obj?) <==> forall m | 0 <= m < |list| :: configs.items[m].Obj?;
      }
    }
  }

  lemma {:induction false} AllAttachableStays(j: Json, edits: seq<Edit>)
    requires ConfigEdits(edits)
    ensures Attachable(Apply(j, edits)) == Attachable(j)
    decreases |edits|
  {
    if edits != [] {
      assert edits[0] in edits;
      AttachableStays(j, edits[0]);
      AllAttachableStays(Write(j, edits[0].path, edits[0].value), edits[1..]);
    }
  }

  /** What `strip_patch_config_tasks` passes, the attaching loop passes later. */
  lemma FitsIsAttachable(j: Json)
    requires ConfigsFit(j)
    ensures Attachable(WithoutConfigs(j))
  {
    var edits := Removals(ConfigPaths(Elements(j, PROFILES)));
    ConfigPathsFit(Elements(j, PROFILES));
    ConfigEditPaths(ConfigPaths(Elements(j, PROFILES)), Null);
    forall e <- edits ensures IsConfigPath(e.path) {
      assert e in edits + Attachments(ConfigPaths(Elements(j, PROFILES)), Null);
    }
    assert Attachable(j);
    AllAttachableStays(j, edits);
  }

  /** Taking secrets out leaves what `strip_patch_config_tasks` reads. */
  lemma StripLeavesConfigs(j: Json, holders: seq<Holder>, sites: seq<Site>)
    requires SitesOffConfigs(sites) && forall h <- holders :: HolderPlace(h.path)
    ensures ConfigsFit(StripPayload(j, holders, sites)) == ConfigsFit(j)
  {
    var t := StripPayload(j, holders, sites);
    var edits := HolderStrip(holders) + StripEdits(sites);
    StripIsDeep(holders, sites);
    ApplySplit(j, HolderStrip(holders), StripEdits(sites));
    ListKindKept(j, edits, PROFILES);
    ListKept(j, edits, PROFILES);
    hide ConfigFits, StripPayload, HolderStrip, StripEdits, Elements, Iterable;
    var a, b := Elements(t, PROFILES), Elements(j, PROFILES);
    forall i | 0 <= i < |a| ensures ProfileFits(a[i]) == ProfileFits(b[i]) {
      ProfileLeft(j, holders, sites, i);
    }
    hide ProfileFits;
    assert (forall p | p in a :: ProfileFits(p)) <==> forall i | 0 <= i < |a| :: ProfileFits(a[i]);
    assert (forall p | p in b :: ProfileFits(p)) <==> forall i | 0 <= i < |b| :: ProfileFits(b[i]);
  }

  lemma StripIsDeep(holders: seq<Holder>, sites: seq<Site>)
    requires SitesOffConfigs(sites) && forall h <- holders :: HolderPlace(h.path)
    ensures forall e <- HolderStrip(holders) + StripEdits(sites) :: Deep(e, PROFILES)
    ensures forall e <- HolderStrip(holders) + StripEdits(sites) :: OffConfigs(e.path)
  {
    forall e <- HolderStrip(holders) + StripEdits(sites) ensures OffConfigs(e.path) {
      if e in HolderStrip(holders) {
        HolderEdits(holders, map[]);
        assert e in HolderStrip(holders) + HolderPatch(holders, map[]);
        var h :| h in holders && e.path == h.path;
      } else {
        var s := EditsOfSites(sites, e);
        var x := OfSiteSuffix(e, s);
      }
    }
  }

  lemma ProfileLeft(j: Json, holders: seq<Holder>, sites: seq<Site>, i: nat)
    requires SitesOffConfigs(sites) && forall h <- holders :: HolderPlace(h.path)
    requires i < |Elements(j, PROFILES)| && i < |Elements(StripPayload(j, holders, sites), PROFILES)|
    ensures ProfileFits(Elements(StripPayload(j, holders, sites), PROFILES)[i]) == ProfileFits(Elements(j, PROFILES)[i])
  {
    var p, t := [Key(PROFILES), Idx(i)], StripPayload(j, holders, sites);
    var edits := HolderStrip(holders) + StripEdits(sites);
    StripIsDeep(holders, sites);
    StripLeavesMember(j, holders, sites, i, CONFIGS.key);
    forall e <- edits ensures Diverge(e.path, p) || (p < e.path && e.path[|p|].Key?) {
      assert OffConfigs(e.path);
      if e.path[0] == p[0] && e.path[1] != p[1] {
        assert Diverge(e.path[1..], p[1..]);
      }
    }
    LikeStays(j, edits, p);
    ApplySplit(j, HolderStrip(holders), StripEdits(sites));
    RootList(j, PROFILES);
    RootList(t, PROFILES);
    assert [Key(PROFILES)] + [Idx(i)] == p;
    hide ConfigFits, Iterable;
  }

  // ----- the law

  /** Everything the client reads is there, from the strip to the patch. */
  predicate BlueprintFits(j: Json, decompiled: Decompiled, reported: Json) {
    var merged := MergedStatus(TasksOfProfiles(Elements(j, PROFILES)), reported);
    && NamesFit(j, true) && SitesFit(j, PayloadSites(j, BLUEPRINT_LISTS, [], decompiled)) && ConfigsFit(j)
    && merged.Some? && AllReported(ConfigPaths(Elements(j, PROFILES)), Arr(merged.value))
  }

  /** The payload an upload is meant to send: only `attrs` of secrets and the runbooks of configs differ. */
  function Intended(j: Json, decompiled: Decompiled, merged: seq<Json>): Json {
    Apply(Marked(j, PayloadSites(j, BLUEPRINT_LISTS, [], decompiled)),
          Attachments(ConfigPaths(Elements(j, PROFILES)), Arr(merged)))
  }

  lemma CompletedAs(j: Json, decompiled: Decompiled, merged: seq<Json>)
    ensures var holders, sites := Holders(j, decompiled, true), PayloadSites(j, BLUEPRINT_LISTS, [], decompiled);
      var t, k := StripPayload(j, holders, sites), WithConfigs(j, Arr(merged));
      && WithConfigs(WithoutConfigs(t), Arr(merged)) == StripPayload(k, holders, sites)
      && ConfigPaths(Elements(WithoutConfigs(t), PROFILES)) == ConfigPaths(Elements(j, PROFILES))
      && TasksOfProfiles(Elements(t, PROFILES)) == TasksOfProfiles(Elements(j, PROFILES))
      && ConfigsFit(t) == ConfigsFit(j) && (ConfigsFit(t) ==> Attachable(WithoutConfigs(t)))
      && (Completes(sites) ==>
            (PatchRuns(StripPayload(k, holders, sites), SecretMap(holders), Records(sites), Kept(sites))
             <==> NamesPatchable(j) && AllWalk(j, sites)))
      && Holders(k, decompiled, true) == holders
  {
    var holders, sites := Holders(j, decompiled, true), PayloadSites(j, BLUEPRINT_LISTS, [], decompiled);
    var t, edits := StripPayload(j, holders, sites), Attachments(ConfigPaths(Elements(j, PROFILES)), Arr(merged));
    hide Holders, PayloadSites, StripPayload, Attachments, ConfigPaths, ConfigsFit, Attachable, NamesPatchable,
         TasksOfProfiles, Elements;
    hide PatchRuns, AllWalk, Records, Kept, SecretMap, Completes, WellPlaced;
    BlueprintSites(j, decompiled);
    HoldersHavePlaces(j, decompiled, true);
    ConfigsTogether(j, holders, sites, Arr(merged));
    StripShape(j, holders, sites);
    RemovalShape(t);
    StripLeavesTasks(j, decompiled);
    StripLeavesConfigs(j, holders, sites);
    if ConfigsFit(t) {
      FitsIsAttachable(t);
    }
    ConfigsLeaveHolders(j, edits, decompiled);
    if Completes(sites) {
      RunsWithConfigs(j, decompiled, edits, sites);
    }
  }

  lemma RunsWithConfigs(j: Json, decompiled: Decompiled, edits: seq<Edit>, sites: seq<Site>)
    requires ConfigEdits(edits) && SitesOffConfigs(sites) && WellPlaced(j, sites) && SitesOff(sites)
    ensures var k := Apply(j, edits);
      var holders := Holders(k, decompiled, true);
      PatchRuns(StripPayload(k, holders, sites), SecretMap(holders), Records(sites), Kept(sites))
      <==> NamesPatchable(j) && AllWalk(j, sites)
  {
    hide Apply, Holders, StripPayload, SecretMap, Records, Kept, PatchRuns, NamesPatchable, AllWalk;
    ConfigEditsHarmless(edits);
    PatchableKept(j, edits);
    ConfigsLeaveSites(j, edits, sites);
    ConfigsLeaveWalks(j, edits, sites);
    PatchRunsExactly(Apply(j, edits), decompiled, true, sites);
  }

  lemma CompletedWhen(t: Json, reported: Json, secrets: map<string, Json>, records: seq<SecretRecord>,
                      kept: seq<KeptRecord>)
    ensures var u, merged := WithoutConfigs(t), MergedStatus(TasksOfProfiles(Elements(t, PROFILES)), reported);
      var c := Completed(t, reported, secrets, records, kept);
      && (c.Some? <==>
            && ConfigsFit(t) && merged.Some? && Attachable(u)
                && AllReported(ConfigPaths(Elements(u, PROFILES)), Arr(merged.value))
            && PatchRuns(WithConfigs(u, Arr(merged.value)), secrets, records, kept))
      && (c.Some? ==> c.value == PatchPayload(WithConfigs(u, Arr(merged.value)), secrets, records, kept))
  {
    hide WithoutConfigs, WithConfigs, ConfigsFit, MergedStatus, Attachable, AllReported, PatchRuns, PatchPayload,
         TasksOfProfiles, Elements, ConfigPaths;
  }

  lemma OutcomeIs(j: Json, decompiled: Decompiled, reported: Json)
    ensures BlueprintOutcome(j, decompiled, reported).Some? <==> BlueprintFits(j, decompiled, reported)
    ensures BlueprintFits(j, decompiled, reported) ==>
      var merged := MergedStatus(TasksOfProfiles(Elements(j, PROFILES)), reported).value;
      var holders, sites := Holders(j, decompiled, true), PayloadSites(j, BLUEPRINT_LISTS, [], decompiled);
      BlueprintOutcome(j, decompiled, reported) == Some(RoundTrip(WithConfigs(j, Arr(merged)), holders, sites))
  {
    OutcomeFits(j, decompiled, reported);
    hide BlueprintFits;
    if BlueprintOutcome(j, decompiled, reported).Some? {
      OutcomeValue(j, decompiled, reported);
    }
    hide *;
  }

  /** What is sent when something is. */
  lemma OutcomeValue(j: Json, decompiled: Decompiled, reported: Json)
    requires BlueprintOutcome(j, decompiled, reported).Some?
    ensures MergedStatus(TasksOfProfiles(Elements(j, PROFILES)), reported).Some?
    ensures var merged := MergedStatus(TasksOfProfiles(Elements(j, PROFILES)), reported).value;
      var holders, sites := Holders(j, decompiled, true), PayloadSites(j, BLUEPRINT_LISTS, [], decompiled);
      BlueprintOutcome(j, decompiled, reported) == Some(RoundTrip(WithConfigs(j, Arr(merged)), holders, sites))
  {
    var merged := MergedStatus(TasksOfProfiles(Elements(j, PROFILES)), reported);
    var holders, sites := Holders(j, decompiled, true), PayloadSites(j, BLUEPRINT_LISTS, [], decompiled);
    CompletedAs(j, decompiled, if merged.Some? then merged.value else []);
    CompletedWhen(StripPayload(j, holders, sites), reported, SecretMap(holders), Records(sites), Kept(sites));
    hide Completed, SecretMap, Records, Kept, Holders, PayloadSites, StripPayload, WithConfigs, WithoutConfigs,
         ConfigPaths, BlueprintOutcome;
    hide ConfigsFit, Attachable, NamesPatchable, NamesStrippable, TasksOfProfiles, Elements, PatchPayload,
         MergedStatus, Completes, AllReported;
    hide PatchRuns, AllWalk;
    BeginsWithSecrets(j, decompiled, reported);
  }

  /** Exactly when something is sent. */
  lemma OutcomeFits(j: Json, decompiled: Decompiled, reported: Json)
    ensures BlueprintOutcome(j, decompiled, reported).Some? <==> BlueprintFits(j, decompiled, reported)
  {
    var merged := MergedStatus(TasksOfProfiles(Elements(j, PROFILES)), reported);
    var holders, sites := Holders(j, decompiled, true), PayloadSites(j, BLUEPRINT_LISTS, [], decompiled);
    CompletedAs(j, decompiled, if merged.Some? then merged.value else []);
    CompletedWhen(StripPayload(j, holders, sites), reported, SecretMap(holders), Records(sites), Kept(sites));
    hide Completed, SecretMap, Records, Kept, Holders, PayloadSites, StripPayload, WithConfigs, WithoutConfigs,
         ConfigPaths, BlueprintOutcome;
    hide ConfigsFit, Attachable, NamesPatchable, NamesStrippable, TasksOfProfiles, Elements, PatchPayload,
         MergedStatus, Completes, AllReported;
    hide PatchRuns, AllWalk;
    BeginsWithSecrets(j, decompiled, reported);
  }

  lemma BeginsWithSecrets(j: Json, decompiled: Decompiled, reported: Json)
    ensures var holders, sites := Holders(j, decompiled, true), PayloadSites(j, BLUEPRINT_LISTS, [], decompiled);
      var t := StripPayload(j, holders, sites);
      BlueprintOutcome(j, decompiled, reported) ==
        if NamesStrippable(j, true) && Completes(sites) then
          Completed(t, reported, SecretMap(holders), Records(sites), Kept(sites))
        else None
  {
    hide Completed, StripPayload, NamesStrippable, Completes, PayloadSites, Holders, SecretMap, Records, Kept;
  }

  /**
   End to end, for every blueprint and every report: the client sends a payload exactly when all it
   reads is there and all it patches can be walked to; and what it sends is the original payload with
   every patch config holding the runbook the server made for it, the user's tasks merged in, and only
   `attrs` of secrets set, nothing else lost, moved or changed, exactly when moreover no names clash
   and every secret found by path fits.
   */
  lemma BlueprintLaw(j: Json, decompiled: Decompiled, reported: Json)
    ensures BlueprintOutcome(j, decompiled, reported).Some? <==> BlueprintFits(j, decompiled, reported)
    ensures BlueprintFits(j, decompiled, reported) ==>
      var merged := MergedStatus(TasksOfProfiles(Elements(j, PROFILES)), reported).value;
      var holders, sites := Holders(j, decompiled, true), PayloadSites(j, BLUEPRINT_LISTS, [], decompiled);
      BlueprintOutcome(j, decompiled, reported) == Some(Intended(j, decompiled, merged))
      <==> Unclashing(holders) && forall s <- sites :: Fitting(j, s)
  {
    OutcomeIs(j, decompiled, reported);
    if BlueprintFits(j, decompiled, reported) {
      var merged := MergedStatus(TasksOfProfiles(Elements(j, PROFILES)), reported).value;
      CredentialsAreObjects(j, true);
      hide BlueprintOutcome, MergedStatus, TasksOfProfiles, NamesFit, NamesStrippable, ConfigsFit, AllReported, AllWalk;
      RoundTripWithConfigs(j, decompiled, merged);
    }
  }

  lemma RoundTripWithConfigs(j: Json, decompiled: Decompiled, merged: seq<Json>)
    requires Completes(PayloadSites(j, BLUEPRINT_LISTS, [], decompiled))
    requires forall c <- Elements(j, CREDENTIALS) :: c.Obj?
    ensures var holders, sites := Holders(j, decompiled, true), PayloadSites(j, BLUEPRINT_LISTS, [], decompiled);
      RoundTrip(WithConfigs(j, Arr(merged)), holders, sites) == Intended(j, decompiled, merged)
      <==> Unclashing(holders) && forall s <- sites :: Fitting(j, s)
  {
    hide Holders, PayloadSites, Attachments, ConfigPaths, RoundTrip, Apply, Marked, Fitting, Unclashing, Completes,
         WellPlaced;
    var holders, sites := Holders(j, decompiled, true), PayloadSites(j, BLUEPRINT_LISTS, [], decompiled);
    var edits := Attachments(ConfigPaths(Elements(j, PROFILES)), Arr(merged));
    var k := WithConfigs(j, Arr(merged));
    BlueprintSites(j, decompiled);
    HoldersHavePlaces(j, decompiled, true);
    ConfigsTogether(j, holders, sites, Arr(merged));
    ConfigsLeaveHolders(j, edits, decompiled);
    RootKept(j, edits, CREDENTIALS);
    ConfigsLeaveSites(j, edits, sites);
    PayloadRoundTripExactly(k, decompiled, true, sites);
    ConfigsLast(j, edits, sites);
  }

  // ----- the passes over patch configs, in place

  /** User tasks by profile and config name, the last of a name winning. */
  function TasksOfConfigs(configs: seq<Json>): map<string, seq<Json>> {
    if configs == [] then map[]
    else
      var n := |configs| - 1;
      TasksOfConfigs(configs[..n])[Text(configs[n], "name") := Elements(OrNull(Get(configs[n], "runbook")), TASKS.key)]
  }

  function TasksOfProfiles(profiles: seq<Json>): map<string, map<string, seq<Json>>> {
    if profiles == [] then map[]
    else
      var n := |profiles| - 1;
      TasksOfProfiles(profiles[..n])[Text(profiles[n], "name") := TasksOfConfigs(Elements(profiles[n], CONFIGS.key))]
  }

  lemma {:induction false} RemovalsSplit(a: seq<Path>, b: seq<Path>)
    ensures Removals(a + b) == Removals(a) + Removals(b)
  {
    if b == [] {
      assert a + b == a;
    } else {
      assert (a + b)[..|a + b|-1] == a + b[..|b|-1];
      RemovalsSplit(a, b[..|b|-1]);
    }
  }

  lemma {:induction false} AttachmentsSplit(a: seq<Path>, b: seq<Path>, status: Json)
    ensures Attachments(a + b, status) == Attachments(a, status) + Attachments(b, status)
  {
    if b == [] {
      assert a + b == a;
    } else {
      assert (a + b)[..|a + b|-1] == a + b[..|b|-1];
      AttachmentsSplit(a, b[..|b|-1], status);
    }
  }

  /** The configs of later positions, and profiles of later positions, are as they were. */
  lemma {:induction false} ConfigStays(j: Json, edits: seq<Edit>, i: nat, k: nat)
    requires forall e <- edits :: IsConfigPath(e.path) && e.path[1] == Idx(i) && e.path[3].idx < k
    ensures Lookup(Apply(j, edits), [Key(PROFILES), Idx(i), CONFIGS, Idx(k)])
            == Lookup(j, [Key(PROFILES), Idx(i), CONFIGS, Idx(k)])
  {
    var q := [Key(PROFILES), Idx(i), CONFIGS, Idx(k)];
    forall e <- edits ensures Diverge(e.path, q) {
      assert e.path[..3] == q[..3];
      HeadsDiverge(q[..3], e.path, q);
    }
    ApplyFrame(j, edits, q);
  }

  lemma ProfileStays(j: Json, edits: seq<Edit>, i: nat)
    requires forall e <- edits :: IsConfigPath(e.path) && e.path[1].idx < i
    ensures Lookup(Apply(j, edits), [Key(PROFILES), Idx(i)]) == Lookup(j, [Key(PROFILES), Idx(i)])
  {
    var q := [Key(PROFILES), Idx(i)];
    forall e <- edits ensures Diverge(e.path, q) {
      assert e.path[..1] == q[..1];
      HeadsDiverge(q[..1], e.path, q);
    }
    ApplyFrame(j, edits, q);
  }

  /** Taking secrets out leaves the name and the patch configs of every profile. */
  lemma StripLeavesMember(j: Json, holders: seq<Holder>, sites: seq<Site>, i: nat, member: string)
    requires SitesOffConfigs(sites) && forall h <- holders :: HolderPlace(h.path)
    requires i < |Elements(j, PROFILES)| && member in {"name", CONFIGS.key}
    ensures var t := StripPayload(j, holders, sites);
      && |Elements(t, PROFILES)| == |Elements(j, PROFILES)|
      && Get(Elements(t, PROFILES)[i], member) == Get(Elements(j, PROFILES)[i], member)
  {
    var q := [Key(PROFILES), Idx(i), Key(member)];
    var t := StripPayload(j, holders, sites);
    StripShape(j, holders, sites);
    hide StripEdits, HolderStrip;
    forall s | s in sites ensures Diverge(s.path, q) {
      NameOrConfigsDiverge(s.path, q);
    }
    forall h | h in holders ensures Diverge(h.path, q) {
    }
    HoldersMiss(holders, map[], q);
    EditsMiss(sites, q);
    ApplyFrame(j, HolderStrip(holders), q);
    ApplyFrame(Apply(j, HolderStrip(holders)), StripEdits(sites), q);
    RowMember(j, PROFILES, i, member);
    RowMember(t, PROFILES, i, member);
  }

  lemma {:induction false} NameOrConfigsDiverge(p: Path, q: Path)
    requires OffConfigs(p) && |q| == 3 && q[0] == Key(PROFILES) && q[1].Idx? && q[2] in {CONFIGS, Key("name")}
    ensures Diverge(p, q)
  {
    if p[0] == q[0] {
      if p[1] == q[1] {
        assert p[..2] == q[..2];
        HeadsDiverge(q[..2], p, q);
      } else {
        assert p[..1] == q[..1];
        HeadsDiverge(q[..1], p, q);
      }
    }
  }

  lemma RowMember(j: Json, list: string, i: nat, member: string)
    requires i < |Elements(j, list)|
    ensures Lookup(j, [Key(list), Idx(i), Key(member)]) == Get(Elements(j, list)[i], member)
  {
    var q := [Key(list), Idx(i), Key(member)];
    assert q[1..] == [Idx(i), Key(member)] && q[1..][1..] == [Key(member)];
    OneStep(Elements(j, list)[i], Key(member));
  }

  lemma {:induction false} SameTasks(a: seq<Json>, b: seq<Json>)
    requires |a| == |b|
    requires forall i | 0 <= i < |a| ::
                Get(a[i], "name") == Get(b[i], "name") && Get(a[i], CONFIGS.key) == Get(b[i], CONFIGS.key)
    ensures TasksOfProfiles(a) == TasksOfProfiles(b)
  {
    hide TasksOfConfigs;
    if a != [] {
      SameTasks(a[..|a|-1], b[..|b|-1]);
    }
  }

  /** What is handed to the merge are the tasks the user wrote, secrets or not. */
  lemma StripLeavesTasks(j: Json, decompiled: Decompiled)
    ensures var t := StripPayload(j, Holders(j, decompiled, true), PayloadSites(j, BLUEPRINT_LISTS, [], decompiled));
      TasksOfProfiles(Elements(t, PROFILES)) == TasksOfProfiles(Elements(j, PROFILES))
  {
    hide Holders, PayloadSites, StripPayload, Elements, TasksOfProfiles;
    var holders, sites := Holders(j, decompiled, true), PayloadSites(j, BLUEPRINT_LISTS, [], decompiled);
    var t := StripPayload(j, holders, sites);
    BlueprintSites(j, decompiled);
    HoldersHavePlaces(j, decompiled, true);
    StripShape(j, holders, sites);
    forall i | 0 <= i < |Elements(j, PROFILES)|
      ensures Get(Elements(t, PROFILES)[i], "name") == Get(Elements(j, PROFILES)[i], "name")
      ensures Get(Elements(t, PROFILES)[i], CONFIGS.key) == Get(Elements(j, PROFILES)[i], CONFIGS.key)
    {
      StripLeavesMember(j, holders, sites, i, "name");
      StripLeavesMember(j, holders, sites, i, CONFIGS.key);
    }
    SameTasks(Elements(t, PROFILES), Elements(j, PROFILES));
  }

  function ConfigsOf(j: Json, i: nat): seq<Json> {
    Elements(Node(j, [Key(PROFILES), Idx(i)]), CONFIGS.key)
  }

  lemma RemovalTurn(j: Json, i: nat, k: nat)
    requires k < |ConfigsOf(j, i)|
    ensures var before := Apply(j, Removals(RowPaths(i, k)));
      && Lookup(before, [Key(PROFILES), Idx(i), CONFIGS, Idx(k)]) == Some(ConfigsOf(j, i)[k])
      && Apply(j, Removals(RowPaths(i, k + 1))) == Write(before, ConfigPath(i, k), None)
  {
    hide Apply, Removals, Lookup;
    var paths := RowPaths(i, k);
    ElementsAt(j, [Key(PROFILES), Idx(i)], CONFIGS.key);
    assert [Key(PROFILES), Idx(i)] + [CONFIGS] + [Idx(k)] == [Key(PROFILES), Idx(i), CONFIGS, Idx(k)];
    EarlierRows(i, k);
    ConfigStays(j, Removals(paths), i, k);
    RemoveLast(j, paths, ConfigPath(i, k));
    assert RowPaths(i, k + 1) == paths + [ConfigPath(i, k)];
  }

  lemma {:induction false} EarlierRows(i: nat, k: nat)
    ensures forall e <- Removals(RowPaths(i, k)) :: IsConfigPath(e.path) && e.path[1] == Idx(i) && e.path[3].idx < k
  {
    var paths := RowPaths(i, k);
    ConfigEditPaths(paths, Null);
    forall e <- Removals(paths) ensures IsConfigPath(e.path) && e.path[1] == Idx(i) && e.path[3].idx < k {
      assert e in Removals(paths) + Attachments(paths, Null);
    }
  }

  lemma RemoveLast(j: Json, paths: seq<Path>, p: Path)
    ensures Apply(j, Removals(paths + [p])) == Write(Apply(j, Removals(paths)), p, None)
  {
    RemovalsSplit(paths, [p]);
    assert [p][..0] == [] && Removals([p]) == [Edit(p, None)];
    ApplySplit(j, Removals(paths), [Edit(p, None)]);
    OneEdit(Apply(j, Removals(paths)), Edit(p, None));
  }

  lemma AttachmentTurn(j: Json, i: nat, k: nat, status: Json)
    ensures Apply(j, Attachments(RowPaths(i, k + 1), status))
         == Write(Apply(j, Attachments(RowPaths(i, k), status)), ConfigPath(i, k),
                  Some(Reported(status, ConfigPath(i, k))))
  {
    var p := ConfigPath(i, k);
    AttachmentsSplit(RowPaths(i, k), [p], status);
    assert [p][..0] == [] && Attachments([p], status) == [Edit(p, Some(Reported(status, p)))];
    ApplySplit(j, Attachments(RowPaths(i, k), status), Attachments([p], status));
    OneEdit(Apply(j, Attachments(RowPaths(i, k), status)), Attachments([p], status)[0]);
  }

  lemma ProfileTurn(j: Json, profiles: seq<Json>, i: nat, status: Json)
    requires profiles == Elements(j, PROFILES) && i < |profiles|
    ensures var row := RowPaths(i, |Elements(profiles[i], CONFIGS.key)|);
      var gone := Apply(j, Removals(ConfigPaths(profiles[..i])));
      var back := Apply(j, Attachments(ConfigPaths(profiles[..i]), status));
      && Node(gone, [Key(PROFILES), Idx(i)]) == profiles[i]
      && Node(back, [Key(PROFILES), Idx(i)]) == profiles[i]
      && Apply(j, Removals(ConfigPaths(profiles[..i+1]))) == Apply(gone, Removals(row))
      && Apply(j, Attachments(ConfigPaths(profiles[..i+1]), status)) == Apply(back, Attachments(row, status))
  {
    hide Apply, Removals, Attachments;
    var row := RowPaths(i, |Elements(profiles[i], CONFIGS.key)|);
    var before := ConfigPaths(profiles[..i]);
    ConfigPathsFit(profiles[..i]);
    EarlierProfiles(before, i, status);
    ProfileStays(j, Removals(before), i);
    ProfileStays(j, Attachments(before, status), i);
    RootList(j, PROFILES);
    assert [Key(PROFILES)] + [Idx(i)] == [Key(PROFILES), Idx(i)];
    FirstOnes(profiles, i);
    assert ConfigPaths(profiles[..i+1]) == before + row;
    RemovalsSplit(before, row);
    AttachmentsSplit(before, row, status);
    ApplySplit(j, Removals(before), Removals(row));
    ApplySplit(j, Attachments(before, status), Attachments(row, status));
  }

  lemma EarlierProfiles(before: seq<Path>, i: nat, status: Json)
    requires AllConfigs(before, i)
    ensures forall e <- Removals(before) + Attachments(before, status) :: IsConfigPath(e.path) && e.path[1].idx < i
  {
    ConfigEditPaths(before, status);
  }

  lemma TasksTurn(configs: seq<Json>, k: nat)
    requires k < |configs|
    ensures TasksOfConfigs(configs[..k+1])
         == TasksOfConfigs(configs[..k])
              [Text(configs[k], "name") := Elements(OrNull(Get(configs[k], "runbook")), TASKS.key)]
  {
    FirstOnes(configs, k);
  }

  lemma ProfilesTurn(profiles: seq<Json>, i: nat)
    requires i < |profiles|
    ensures TasksOfProfiles(profiles[..i+1])
         == TasksOfProfiles(profiles[..i])
              [Text(profiles[i], "name") := TasksOfConfigs(Elements(profiles[i], CONFIGS.key))]
  {
    FirstOnes(profiles, i);
  }

  class ConfigPayload {
    var resources: Json

    constructor (resources: Json)
      ensures this.resources == resources
    {
      this.resources := resources;
    }

    /** The inner loop of `strip_patch_config_tasks`, for the profile at index `i`. */
    method StripConfigs(i: nat) returns (ok: bool, tasks: map<string, seq<Json>>)
      modifies this
      ensures ok == forall c | c in ConfigsOf(old(resources), i) :: ConfigFits(c)
      ensures ok ==> resources == Apply(old(resources), Removals(RowPaths(i, |ConfigsOf(old(resources), i)|)))
      ensures ok ==> tasks == TasksOfConfigs(ConfigsOf(old(resources), i))
    {
      hide Lookup, Elements, Text, ConfigFits, ConfigsOf;
      var configs := ConfigsOf(resources, i);
      tasks := map[];
      NoRows(i, resources, Null);
      hide Apply, Removals, RowPaths, ConfigPath;
      var k := 0;
      while k < |configs|
        invariant k <= |configs|
        invariant resources == Apply(old(resources), Removals(RowPaths(i, k)))
        invariant tasks == TasksOfConfigs(configs[..k])
        invariant forall m | 0 <= m < k :: ConfigFits(configs[m])
      {
        RemovalTurn(old(resources), i, k);
        TasksTurn(configs, k);
        assert configs[k] in configs;
        var config := Node(resources, [Key(PROFILES), Idx(i), CONFIGS, Idx(k)]);
        if !ConfigFits(config) {
          return false, tasks;
        }
        tasks := tasks[Text(config, "name") := Elements(OrNull(Get(config, "runbook")), TASKS.key)];
        resources := Write(resources, ConfigPath(i, k), None);
        k := k + 1;
      }
      WholePrefix(configs, k);
      ok := true;
    }

    method StripProfile(i: nat) returns (ok: bool, tasks: map<string, seq<Json>>)
      modifies this
      ensures ok == ProfileFits(Node(old(resources), [Key(PROFILES), Idx(i)]))
      ensures ok ==> resources == Apply(old(resources), Removals(RowPaths(i, |ConfigsOf(old(resources), i)|)))
      ensures ok ==> tasks == TasksOfConfigs(ConfigsOf(old(resources), i))
    {
      hide Lookup, Apply, Removals, RowPaths, ConfigFits, Elements, TasksOfConfigs;
      var profile := Node(resources, [Key(PROFILES), Idx(i)]);
      if !profile.Obj? || !Iterable(Get(profile, CONFIGS.key)) {
        return false, map[];
      }
      ok, tasks := StripConfigs(i);
    }

    /** `strip_patch_config_tasks` */
    method StripPatchConfigTasks() returns (ok: bool, tasks: map<string, map<string, seq<Json>>>)
      modifies this
      ensures ok == ConfigsFit(old(resources))
      ensures ok ==> resources == WithoutConfigs(old(resources))
      ensures ok ==> tasks == TasksOfProfiles(Elements(old(resources), PROFILES))
    {
      tasks := map[];
      ghost var j := resources;
      NothingRemoved(j);
      ConfigsFitWhen(j);
      hide *;
      if !Iterable(Get(resources, PROFILES)) {
        return false, tasks;
      }
      var profiles := Elements(resources, PROFILES);
      assert profiles[..0] == [];
      var i := 0;
      while i < |profiles|
        invariant i <= |profiles|
        invariant resources == Apply(old(resources), Removals(ConfigPaths(profiles[..i])))
        invariant tasks == TasksOfProfiles(profiles[..i])
        invariant forall m | 0 <= m < i :: ProfileFits(profiles[m])
      {
        ProfileTurn(old(resources), profiles, i, Null);
        ProfilesTurn(profiles, i);
        ConfigsOfProfile(resources, profiles[i], i);
        var name := Text(Node(resources, [Key(PROFILES), Idx(i)]), "name");
        var passed, configTasks := StripProfile(i);
        if !passed {
          return false, tasks;
        }
        tasks := tasks[name := configTasks];
        i := i + 1;
      }
      WholePrefix(profiles, i);
      ok := true;
    }

    /** The last loop of `add_patch_config_tasks`: runbooks are attached by position. */
    method AttachRunbooks(status: Json) returns (ok: bool)
      modifies this
      ensures ok == (Attachable(old(resources)) && AllReported(ConfigPaths(Elements(old(resources), PROFILES)), status))
      ensures ok ==> resources == WithConfigs(old(resources), status)
    {
      ghost var j := resources;
      NothingAttached(j, status);
      NothingReported(status);
      AttachableWhen(j, status);
      hide *;
      if !Iterable(Get(resources, PROFILES)) {
        return false;
      }
      var profiles := Elements(resources, PROFILES);
      assert profiles[..0] == [];
      var i := 0;
      while i < |profiles|
        invariant i <= |profiles|
        invariant resources == Apply(old(resources), Attachments(ConfigPaths(profiles[..i]), status))
        invariant forall m | 0 <= m < i :: TakesConfigs(profiles[m])
        invariant AllReported(ConfigPaths(profiles[..i]), status)
      {
        ProfileTurn(old(resources), profiles, i, status);
        ReportedTurn(profiles, i, status);
        ConfigsOfProfile(resources, profiles[i], i);
        ok := AttachRow(i, status);
        if !ok {
          return;
        }
        i := i + 1;
      }
      WholePrefix(profiles, i);
      ok := true;
    }

    method AttachRow(i: nat, status: Json) returns (ok: bool)
      modifies this
      ensures ok == (TakesConfigs(Node(old(resources), [Key(PROFILES), Idx(i)]))
                     && AllReported(RowPaths(i, |ConfigsOf(old(resources), i)|), status))
      ensures ok ==> resources == Apply(old(resources),
                                        Attachments(RowPaths(i, |ConfigsOf(old(resources), i)|), status))
    {
      hide Lookup, Apply, Attachments, RowPaths, Elements, AllReported, TakesConfigs;
      if !TakesConfigs(Node(resources, [Key(PROFILES), Idx(i)])) {
        return false;
      }
      ok := AttachProfile(i, |ConfigsOf(resources, i)|, status);
    }

    /** One profile; a position the server did not report ends the loop with an error. */
    method AttachProfile(i: nat, n: nat, status: Json) returns (ok: bool)
      modifies this
      ensures ok == AllReported(RowPaths(i, n), status)
      ensures ok ==> resources == Apply(old(resources), Attachments(RowPaths(i, n), status))
    {
      NoRows(i, resources, status);
      hide Lookup, Apply, Attachments, RowPaths, AllReported;
      var k := 0;
      while k < n
        invariant k <= n
        invariant resources == Apply(old(resources), Attachments(RowPaths(i, k), status))
        invariant AllReported(RowPaths(i, k), status)
      {
        AttachmentTurn(old(resources), i, k, status);
        RowReported(i, k, n, status);
        var runbook := Lookup(status, ConfigPath(i, k)[1..]);
        if runbook.None? {
          return false;
        }
        resources := Write(resources, ConfigPath(i, k), Some(runbook.value));
        k := k + 1;
      }
      ok := true;
    }
  }

  lemma NoRows(i: nat, j: Json, status: Json)
    ensures Apply(j, Removals(RowPaths(i, 0))) == j && Apply(j, Attachments(RowPaths(i, 0), status)) == j
    ensures AllReported(RowPaths(i, 0), status)
  {
  }

  lemma RowReported(i: nat, k: nat, n: nat, status: Json)
    requires k < n
    ensures AllReported(RowPaths(i, k + 1), status) <==>
              AllReported(RowPaths(i, k), status) && Lookup(status, ConfigPath(i, k)[1..]).Some?
    ensures AllReported(RowPaths(i, n), status) ==> Lookup(status, ConfigPath(i, k)[1..]).Some?
  {
    hide Lookup;
    assert RowPaths(i, k + 1) == RowPaths(i, k) + [ConfigPath(i, k)];
    EitherPath(RowPaths(i, k), [ConfigPath(i, k)]);
    assert RowPaths(i, n)[k] in RowPaths(i, n);
  }

  lemma ConfigsFitWhen(j: Json)
    ensures var profiles := Elements(j, PROFILES);
      && (ConfigsFit(j) <==> Iterable(Get(j, PROFILES)) && forall i | 0 <= i < |profiles| :: ProfileFits(profiles[i]))
      && WithoutConfigs(j) == Apply(j, Removals(ConfigPaths(profiles)))
  {
    hide ProfileFits, Elements, Iterable;
  }

  lemma AttachableWhen(j: Json, status: Json)
    ensures var profiles := Elements(j, PROFILES);
      && (Attachable(j) <==> Iterable(Get(j, PROFILES)) && forall i | 0 <= i < |profiles| :: TakesConfigs(profiles[i]))
      && WithConfigs(j, status) == Apply(j, Attachments(ConfigPaths(profiles), status))
  {
    hide TakesConfigs, Elements, Iterable;
  }

  lemma ConfigsOfProfile(j: Json, profile: Json, i: nat)
    requires Node(j, [Key(PROFILES), Idx(i)]) == profile
    ensures ConfigsOf(j, i) == Elements(profile, CONFIGS.key)
  {
  }

  lemma NothingReported(status: Json)
    ensures AllReported(ConfigPaths([]), status)
  {
  }

  lemma ReportedTurn(profiles: seq<Json>, i: nat, status: Json)
    requires i < |profiles|
    ensures AllReported(ConfigPaths(profiles[..i+1]), status) <==>
              && AllReported(ConfigPaths(profiles[..i]), status)
              && AllReported(RowPaths(i, |Elements(profiles[i], CONFIGS.key)|), status)
    ensures AllReported(ConfigPaths(profiles), status)
            ==> AllReported(RowPaths(i, |Elements(profiles[i], CONFIGS.key)|), status)
  {
    FirstOnes(profiles, i);
    hide Lookup, RowPaths;
    assert ConfigPaths(profiles[..i+1]) == ConfigPaths(profiles[..i])
        + RowPaths(i, |Elements(profiles[i], CONFIGS.key)|);
    EitherPath(ConfigPaths(profiles[..i]), RowPaths(i, |Elements(profiles[i], CONFIGS.key)|));
    FirstPathsListed(profiles, i + 1);
  }

  lemma EitherPath(a: seq<Path>, b: seq<Path>)
    ensures forall p: Path :: (p in a + b) <==> (p in a || p in b)
  {
  }

  lemma {:induction false} FirstPathsListed(profiles: seq<Json>, n: nat)
    requires n <= |profiles|
    ensures forall p: Path | p in ConfigPaths(profiles[..n]) :: p in ConfigPaths(profiles)
  {
    hide RowPaths;
    if n < |profiles| {
      var m := |profiles| - 1;
      assert profiles[..m][..n] == profiles[..n];
      FirstPathsListed(profiles[..m], n);
    } else {
      assert profiles[..n] == profiles;
    }
  }

  /** The loop that fills `service_name_uuid_map`. */
  method NameServices(services: seq<Json>) returns (uuids: Option<P.Names>)
    ensures uuids == ServicesOf(services)
  {
    var names: P.Names := map[];
    var i := 0;
    while i < |services|
      invariant i <= |services| && ServicesOf(services[..i]) == Some(names)
    {
      assert services[..i+1][..i] == services[..i];
      ServicesFail(services, i);
      if Get(services[i], "name").None? || Get(services[i], "uuid").None? {
        return None;
      }
      names := names[Text(services[i], "name") := Text(services[i], "uuid")];
      i := i + 1;
    }
    assert services[..i] == services;
    return Some(names);
  }

  lemma {:induction false} ServicesFail(services: seq<Json>, i: nat)
    requires i < |services|
    ensures Get(services[i], "name").None? || Get(services[i], "uuid").None? ==> ServicesOf(services).None?
  {
    if i < |services| - 1 {
      ServicesFail(services[..|services|-1], i);
    }
  }

  /** The merge of the user's tasks into the profiles the server reported. */
  method MergeReported(tasks: map<string, map<string, seq<Json>>>, reported: Json) returns (merged: Option<seq<Json>>)
    ensures merged == MergedStatus(tasks, reported)
  {
    if !reported.Obj? || !Iterable(Get(reported, SERVICES)) || !Iterable(Get(reported, PROFILES)) {
      return None;
    }
    var services := NameServices(Elements(reported, SERVICES));
    if services.None? {
      return None;
    }
    merged := ConfigMerge.MergeProfiles(Elements(reported, PROFILES), tasks, services.value);
  }

  lemma NothingRemoved(j: Json)
    ensures Apply(j, Removals(ConfigPaths([]))) == j && TasksOfProfiles([]) == map[]
  {
  }

  lemma NothingAttached(j: Json, status: Json)
    ensures Apply(j, Attachments(ConfigPaths([]), status)) == j
  {
  }

  lemma BlueprintWork(j: Json, decompiled: Decompiled)
    ensures var holders, sites := Holders(j, decompiled, true), PayloadSites(j, BLUEPRINT_LISTS, [], decompiled);
      After(Held(Work(j, map[], [], []), holders), sites)
      == Work(StripPayload(j, holders, sites), SecretMap(holders), Records(sites), Kept(sites))
  {
    hide PayloadSites, Holders, HolderStrip, SecretMap, Apply;
    var m := SecretMap(Holders(j, decompiled, true));
    assert map[] + m == m;
  }

  /**
   `upload_with_decompiled_secrets` of a blueprint, and `upload_with_secrets` when nothing was
   decompiled, with a server that echoes the spec and reports profiles and services in `reported`.
   */
  method UploadBlueprint(resources: Json, decompiled: Decompiled, reported: Json)
    returns (created: Option<Json>, update: Option<Json>)
    ensures created == CreatedBlueprint(resources, decompiled)
    ensures update == BlueprintOutcome(resources, decompiled, reported)
  {
    hide PayloadSites, Holders, HolderStrip, SecretMap, Apply, StripPayload, PatchPayload, After, Held, Records, Kept,
         TasksOfProfiles, WithConfigs, WithoutConfigs, Elements, ConfigsFit, Attachable, AllReported, ConfigPaths,
         MergedStatus, Completes;
    BlueprintNames();
    var stripper := new Stripper(resources, decompiled);
    var ok := stripper.StripSecrets(BLUEPRINT_LISTS, []);
    if !ok {
      return None, None;
    }
    BlueprintWork(resources, decompiled);
    created, update := CompleteUpload(stripper.tree, reported, stripper.secretMap, stripper.secretVariables,
                                      stripper.notStripped);
  }

  /** The passes after the secrets were taken out. */
  method CompleteUpload(t: Json, reported: Json, secrets: map<string, Json>, records: seq<SecretRecord>,
                        kept: seq<KeptRecord>)
    returns (created: Option<Json>, update: Option<Json>)
    ensures created == Configless(t)
    ensures update == Completed(t, reported, secrets, records, kept)
  {
    hide PatchPayload, TasksOfProfiles, WithConfigs, WithoutConfigs, Elements, ConfigsFit, Attachable, AllReported,
         ConfigPaths, MergedStatus;
    var configs := new ConfigPayload(t);
    var ok, tasks := configs.StripPatchConfigTasks();
    if !ok {
      return None, None;
    }
    created := Some(configs.resources);
    var merged := MergeReported(tasks, reported);
    if merged.None? {
      return created, None;
    }
    ok := configs.AttachRunbooks(Arr(merged.value));
    if !ok {
      return created, None;
    }
    var patcher := new Patcher(configs.resources);
    ok := patcher.PatchSecrets(secrets, records, kept);
    if !ok {
      return created, None;
    }
    update := Some(patcher.resources);
  }
}
