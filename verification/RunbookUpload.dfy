/** Runbook uploads: each endpoint's secrets are kept by endpoint name, so the server may reorder the endpoints. */
module RunbookUpload {
  import opened Options
  import opened JsonTree
  import opened SecretSites
  import opened SecretWalk
  import opened SecretRoundTrip
  import opened SecretPlaces
  import opened SecretPayload
  import opened SecretLaw
  import opened SecretEntities
  import opened StripPasses
  import opened SecretStripper
  import opened SecretPatcher

  const ENDPOINTS := "endpoint_definition_list"
  const DEFAULT_CREDENTIAL := "default_credential_local_reference"

  type SecretMaps = map<Json, map<string, Json>>

  /** `endpoint.get("name")` */
  function NameOf(endpoint: Json): Json {
    OrNull(Get(endpoint, "name"))
  }

  function AttrsOf(endpoint: Json): Json {
    OrNull(Get(endpoint, "attrs"))
  }

  function WithAttrs(endpoint: Json, attrs: Json): Json {
    PutChild(endpoint, Key("attrs"), Some(attrs))
  }

  function HoldersOf(endpoint: Json): seq<Holder> {
    Holders(AttrsOf(endpoint), map[], true)
  }

  function WithoutDefault(attrs: Json): Json {
    Write(attrs, [Key(DEFAULT_CREDENTIAL)], None)
  }

  predicate Strippable(endpoint: Json) {
    Hashable(NameOf(endpoint)) && NamesStrippable(AttrsOf(endpoint), true)
  }

  predicate Patchable(endpoint: Json, maps: SecretMaps) {
    NameOf(endpoint) in maps && NamesPatchable(AttrsOf(endpoint))
  }

  predicate AllStrippable(endpoints: seq<Json>) {
    forall e <- endpoints :: Strippable(e)
  }

  predicate AllPatchable(endpoints: seq<Json>, maps: SecretMaps) {
    forall e <- endpoints :: Patchable(e, maps)
  }

  /** An endpoint as it is uploaded. */
  function StripEndpoint(endpoint: Json): Json {
    WithAttrs(endpoint, WithoutDefault(StripPayload(AttrsOf(endpoint), HoldersOf(endpoint), [])))
  }

  function PatchEndpoint(endpoint: Json, maps: SecretMaps): Json {
    if NameOf(endpoint) in maps then
      WithAttrs(endpoint, PatchPayload(AttrsOf(endpoint), maps[NameOf(endpoint)], [], []))
    else endpoint
  }

  /** An endpoint as it is meant to come back. */
  function Intact(endpoint: Json): Json {
    WithAttrs(endpoint, WithoutDefault(AttrsOf(endpoint)))
  }

  /** `endpoint_secret_map`: one secret map per name, the last endpoint of a name winning. */
  function MapsOf(endpoints: seq<Json>): SecretMaps {
    if endpoints == [] then map[]
    else
      var e := endpoints[|endpoints|-1];
      MapsOf(endpoints[..|endpoints|-1])[NameOf(e) := SecretMap(HoldersOf(e))]
  }

  function StripEndpoints(endpoints: seq<Json>): (stripped: seq<Json>)
    ensures |stripped| == |endpoints| && forall i | 0 <= i < |endpoints| :: stripped[i] == StripEndpoint(endpoints[i])
  {
    seq(|endpoints|, i requires 0 <= i < |endpoints| => StripEndpoint(endpoints[i]))
  }

  function PatchEndpoints(endpoints: seq<Json>, maps: SecretMaps): (patched: seq<Json>)
    ensures |patched| == |endpoints|
            && forall i | 0 <= i < |endpoints| :: patched[i] == PatchEndpoint(endpoints[i], maps)
  {
    seq(|endpoints|, i requires 0 <= i < |endpoints| => PatchEndpoint(endpoints[i], maps))
  }

  predicate UniqueNames(endpoints: seq<Json>) {
    forall i, k | 0 <= i < k < |endpoints| :: NameOf(endpoints[i]) != NameOf(endpoints[k])
  }

  lemma {:induction false} MapsByName(endpoints: seq<Json>, i: nat)
    requires UniqueNames(endpoints) && i < |endpoints|
    ensures NameOf(endpoints[i]) in MapsOf(endpoints)
    ensures MapsOf(endpoints)[NameOf(endpoints[i])] == SecretMap(HoldersOf(endpoints[i]))
  {
    hide HoldersOf, SecretMap;
    var n := |endpoints| - 1;
    if i < n {
      MapsByName(endpoints[..n], i);
    }
  }

  lemma {:induction false} EveryNameMapped(endpoints: seq<Json>, i: nat)
    requires i < |endpoints|
    ensures NameOf(endpoints[i]) in MapsOf(endpoints)
  {
    hide HoldersOf, SecretMap;
    var n := |endpoints| - 1;
    if i < n {
      EveryNameMapped(endpoints[..n], i);
    }
  }

  // ----- one endpoint

  /** Deleting the default credential reference does not meet any holder. */
  lemma DefaultFirst(attrs: Json)
    ensures Holders(WithoutDefault(attrs), map[], true) == Holders(attrs, map[], true)
    ensures WithoutDefault(StripPayload(attrs, Holders(attrs, map[], true), []))
         == StripPayload(WithoutDefault(attrs), Holders(attrs, map[], true), [])
    ensures NamesStrippable(WithoutDefault(attrs), true) == NamesStrippable(attrs, true)
    ensures NamesPatchable(WithoutDefault(attrs)) == NamesPatchable(attrs)
  {
    hide Holders, HolderStrip;
    OtherMembers(attrs, CREDENTIALS);
    OtherMembers(attrs, "authentication");
    SameHolders(attrs, WithoutDefault(attrs));
    var holders := Holders(attrs, map[], true);
    HoldersMissDefault(attrs, holders);
    ApplyPastOne(attrs, HolderStrip(holders), Edit([Key(DEFAULT_CREDENTIAL)], None));
    SameFits(attrs, WithoutDefault(attrs));
  }

  lemma SameFits(a: Json, b: Json)
    requires a.Obj? == b.Obj? && Get(a, CREDENTIALS) == Get(b, CREDENTIALS)
             && Get(a, "authentication") == Get(b, "authentication")
    ensures NamesStrippable(a, true) == NamesStrippable(b, true) && NamesPatchable(a) == NamesPatchable(b)
  {
    hide CredentialFits, AuthStrippable, NameFits, AuthPatchable, Listable, Iterable;
    assert Elements(a, CREDENTIALS) == Elements(b, CREDENTIALS);
  }

  lemma OtherMembers(attrs: Json, k: string)
    requires k != DEFAULT_CREDENTIAL
    ensures Get(WithoutDefault(attrs), k) == Get(attrs, k)
  {
  }

  lemma SameHolders(a: Json, b: Json)
    requires Get(a, CREDENTIALS) == Get(b, CREDENTIALS) && Get(a, "authentication") == Get(b, "authentication")
    ensures Holders(a, map[], true) == Holders(b, map[], true)
  {
    hide CredentialHolders, IsModified;
  }

  lemma HoldersMissDefault(attrs: Json, holders: seq<Holder>)
    requires holders == Holders(attrs, map[], true)
    ensures Avoid(HolderStrip(holders), [Key(DEFAULT_CREDENTIAL)])
  {
    hide IsModified;
    forall h <- holders ensures Diverge(h.path, [Key(DEFAULT_CREDENTIAL)]) {
    }
    HoldersMiss(holders, map[], [Key(DEFAULT_CREDENTIAL)]);
  }

  lemma NoSites(j: Json)
    ensures Marked(j, []) == j && Records([]) == [] && Kept([]) == []
    ensures Fitted(j, []) && SitesOff([]) && Completes([])
  {
  }

  /** What is read of an endpoint by both passes, or an error raised. */
  predicate EndpointFits(endpoint: Json) {
    Hashable(NameOf(endpoint)) && NamesFit(AttrsOf(endpoint), true)
  }

  predicate AllFit(endpoints: seq<Json>) {
    forall e <- endpoints :: EndpointFits(e)
  }

  /** The secrets of each endpoint are in the map of its name, which is that of the last endpoint of the name. */
  predicate AllAnswered(endpoints: seq<Json>) {
    forall e <- endpoints :: NameOf(e) in MapsOf(endpoints) && Answered(HoldersOf(e), MapsOf(endpoints)[NameOf(e)])
  }

  /** With unique names: in no endpoint do two secrets go by one name. */
  lemma AnsweredWhenUnique(endpoints: seq<Json>)
    requires UniqueNames(endpoints)
    ensures AllAnswered(endpoints) <==> forall e <- endpoints :: Unclashing(HoldersOf(e))
  {
    hide Holders, SecretMap, Unclashing, MapsOf, UniqueNames, Answered;
    forall i | 0 <= i < |endpoints|
      ensures NameOf(endpoints[i]) in MapsOf(endpoints)
      ensures Answered(HoldersOf(endpoints[i]), MapsOf(endpoints)[NameOf(endpoints[i])])
              <==> Unclashing(HoldersOf(endpoints[i]))
    {
      MapsByName(endpoints, i);
      CredentialsReceive(AttrsOf(endpoints[i]));
      OwnMapAnswers(HoldersOf(endpoints[i]));
    }
  }

  lemma CredentialsReceive(attrs: Json)
    ensures CredentialsFirst(Holders(attrs, map[], true))
  {
    hide IsModified;
  }

  /** Patched with any map: what was taken is back exactly when the map answers for it. */
  lemma PatchedWith(attrs: Json, secrets: map<string, Json>)
    requires NamesStrippable(attrs, true)
    ensures var holders := Holders(attrs, map[], true);
      PatchPayload(StripPayload(attrs, holders, []), secrets, [], []) == attrs <==> Answered(holders, secrets)
  {
    var holders := Holders(attrs, map[], true);
    CredentialsAreObjects(attrs, true);
    NoSites(attrs);
    hide NamesStrippable, Holders, HolderStrip, HolderPatch, HolderNet, IsModified, Answered, Apply, Lookup;
    PayloadHoldersPlaced(attrs, map[], true);
    StripIsHarmless(attrs, map[], true, []);
    assert HolderStrip(holders) + StripEdits([]) == HolderStrip(holders);
    TargetsKept(attrs, HolderStrip(holders), map[], true);
    SamePatch(Holders(Apply(attrs, HolderStrip(holders)), map[], false), holders, secrets);
    NothingApplied(Apply(attrs, HolderStrip(holders)));
    HolderRegroup(attrs, holders, secrets);
    AnsweredIsReturned(holders, secrets);
    NetDecides(attrs, holders, secrets);
  }

  lemma NothingApplied(j: Json)
    ensures Apply(j, StripEdits([])) == j && PatchAll(PatchKept(j, []), []) == j
  {
  }

  lemma NetDecides(j: Json, holders: seq<Holder>, secrets: map<string, Json>)
    requires HoldersPlaced(j, holders)
    ensures Apply(j, HolderNet(holders, secrets)) == j <==> forall h <- holders :: Returned(h, secrets) == h.secret
  {
    hide Returned, Apply, HolderNet, Lookup;
    if forall h <- holders :: Returned(h, secrets) == h.secret {
      NetIdentity(j, holders, secrets);
    } else {
      var k :| 0 <= k < |holders| && Returned(holders[k], secrets) != holders[k].secret;
      NetReads(j, holders, secrets, k);
      assert holders[k] in holders;
    }
  }

  /**
   An endpoint's attributes, when its own map is the one they are patched with; None when the
   client raises an error.
   */
  function AttrsOutcome(attrs: Json): Option<Json> {
    var stripped := WithoutDefault(StripPayload(attrs, Holders(attrs, map[], true), []));
    if NamesStrippable(attrs, true) && NamesPatchable(stripped) then
      Some(PatchPayload(stripped, SecretMap(Holders(attrs, map[], true)), [], []))
    else None
  }

  /**
   An endpoint passes without an error exactly when all that is read is there, and comes back exactly
   as it was, except for its default credential reference, which is dropped, exactly when moreover no
   names clash in it.
   */
  lemma EndpointLaw(attrs: Json)
    ensures AttrsOutcome(attrs).Some? <==> NamesFit(attrs, true)
    ensures AttrsOutcome(attrs) == Some(WithoutDefault(attrs))
            <==> NamesFit(attrs, true) && Unclashing(Holders(attrs, map[], true))
  {
    hide Holders, StripPayload, PatchPayload, SecretMap, Unclashing, WithoutDefault, NamesStrippable, NamesPatchable,
         Marked, Fitted, Completes, SitesOff;
    DefaultFirst(attrs);
    NoSites(WithoutDefault(attrs));
    OutcomeExactly(WithoutDefault(attrs), map[], true, []);
  }

  // ----- all endpoints, in any order

  /** The server's order: any places of the list it was sent, none left out. */
  ghost predicate Ordering(order: seq<nat>, n: nat) {
    Within(order, n) && forall i: nat | i < n :: i in order
  }

  predicate Within(order: seq<nat>, n: nat) {
    forall k | 0 <= k < |order| :: order[k] < n
  }

  function Picked<T>(items: seq<T>, order: seq<nat>): (picked: seq<T>)
    requires Within(order, |items|)
    ensures |picked| == |order| && forall i | 0 <= i < |order| :: picked[i] == items[order[i]]
  {
    seq(|order|, i requires 0 <= i < |order| => items[order[i]])
  }

  lemma StrippedAttrs(endpoint: Json)
    requires Strippable(endpoint)
    ensures NameOf(StripEndpoint(endpoint)) == NameOf(endpoint)
    ensures AttrsOf(StripEndpoint(endpoint)) == WithoutDefault(StripPayload(AttrsOf(endpoint), HoldersOf(endpoint), []))
    ensures forall attrs :: WithAttrs(StripEndpoint(endpoint), attrs) == WithAttrs(endpoint, attrs)
  {
    hide StripPayload, HoldersOf, WithoutDefault;
    assert endpoint.Obj?;
    forall attrs ensures WithAttrs(StripEndpoint(endpoint), attrs) == WithAttrs(endpoint, attrs) {
      var stripped := StripEndpoint(endpoint);
      assert stripped.fields["attrs" := attrs] == endpoint.fields["attrs" := attrs];
    }
  }

  lemma SameAttrs(endpoint: Json, a: Json, b: Json)
    requires endpoint.Obj?
    ensures WithAttrs(endpoint, a) == WithAttrs(endpoint, b) <==> a == b
  {
    assert Get(WithAttrs(endpoint, a), "attrs") == Some(a) && Get(WithAttrs(endpoint, b), "attrs") == Some(b);
  }

  /** One endpoint that comes back, patched with the map of its name. */
  lemma EndpointReturns(endpoints: seq<Json>, i: nat)
    requires i < |endpoints| && Strippable(endpoints[i])
    ensures Patchable(StripEndpoint(endpoints[i]), MapsOf(endpoints)) <==> EndpointFits(endpoints[i])
    ensures EndpointFits(endpoints[i]) ==>
              && NameOf(endpoints[i]) in MapsOf(endpoints)
              && (PatchEndpoint(StripEndpoint(endpoints[i]), MapsOf(endpoints)) == Intact(endpoints[i])
                  <==> Answered(HoldersOf(endpoints[i]), MapsOf(endpoints)[NameOf(endpoints[i])]))
  {
    var e := endpoints[i];
    hide Answered, PatchPayload, StripPayload, SecretMap, Unclashing, NamesStrippable, NamesPatchable, MapsOf, Holders,
         WithoutDefault, WithAttrs, Lookup;
    StrippedAttrs(e);
    EveryNameMapped(endpoints, i);
    EndpointLaw(AttrsOf(e));
    if EndpointFits(e) {
      var own, attrs := MapsOf(endpoints)[NameOf(e)], WithoutDefault(AttrsOf(e));
      DefaultFirst(AttrsOf(e));
      PatchedWith(attrs, own);
      var patched := PatchPayload(StripPayload(attrs, HoldersOf(e), []), own, [], []);
      assert PatchEndpoint(StripEndpoint(e), MapsOf(endpoints)) == WithAttrs(e, patched);
      IsObject(e);
      SameAttrs(e, patched, attrs);
    }
  }

  lemma IsObject(endpoint: Json)
    requires Strippable(endpoint)
    ensures endpoint.Obj? && Get(endpoint, "attrs").Some?
  {
  }

  function IntactOnes(endpoints: seq<Json>): (intact: seq<Json>)
    ensures |intact| == |endpoints| && forall i | 0 <= i < |endpoints| :: intact[i] == Intact(endpoints[i])
  {
    seq(|endpoints|, i requires 0 <= i < |endpoints| => Intact(endpoints[i]))
  }

  /** Whatever order the server returns the endpoints in: no error and no loss in any of them. */
  lemma AnyOrderRestores(endpoints: seq<Json>, order: seq<nat>)
    requires Ordering(order, |endpoints|) && AllStrippable(endpoints)
    ensures var returned, maps := Picked(StripEndpoints(endpoints), order), MapsOf(endpoints);
      && (AllPatchable(returned, maps) <==> AllFit(endpoints))
      && (AllFit(endpoints) ==>
            (PatchEndpoints(returned, maps) == Picked(IntactOnes(endpoints), order) <==> AllAnswered(endpoints)))
  {
    hide Patchable, EndpointFits, PatchEndpoint, StripEndpoint, Intact, Answered, HoldersOf, MapsOf, Strippable;
    var returned, maps := Picked(StripEndpoints(endpoints), order), MapsOf(endpoints);
    forall i | 0 <= i < |endpoints|
      ensures Patchable(StripEndpoint(endpoints[i]), maps) <==> EndpointFits(endpoints[i])
      ensures EndpointFits(endpoints[i]) ==>
                && NameOf(endpoints[i]) in maps
                && (PatchEndpoint(StripEndpoint(endpoints[i]), maps) == Intact(endpoints[i])
                    <==> Answered(HoldersOf(endpoints[i]), maps[NameOf(endpoints[i])]))
    {
      EndpointReturns(endpoints, i);
    }
    AllPicked(StripEndpoints(endpoints), order, maps);
    if AllFit(endpoints) {
      assert forall i | 0 <= i < |endpoints| :: EndpointFits(endpoints[i]);
      PickedAlike(PatchEndpoints(StripEndpoints(endpoints), maps), IntactOnes(endpoints), order);
      assert PatchEndpoints(returned, maps) == Picked(PatchEndpoints(StripEndpoints(endpoints), maps), order);
      assert PatchEndpoints(StripEndpoints(endpoints), maps) == IntactOnes(endpoints)
        <==> forall i | 0 <= i < |endpoints| ::
               PatchEndpoint(StripEndpoint(endpoints[i]), maps) == Intact(endpoints[i]);
    }
  }

  lemma AllPicked(endpoints: seq<Json>, order: seq<nat>, maps: SecretMaps)
    requires Ordering(order, |endpoints|)
    ensures (forall e <- Picked(endpoints, order) :: Patchable(e, maps))
            <==> forall i | 0 <= i < |endpoints| :: Patchable(endpoints[i], maps)
  {
    hide Patchable;
    var picked := Picked(endpoints, order);
    if forall e <- picked :: Patchable(e, maps) {
      forall i | 0 <= i < |endpoints| ensures Patchable(endpoints[i], maps) {
        assert i in order;
        var k :| 0 <= k < |order| && order[k] == i;
        assert picked[k] in picked;
      }
    }
  }

  lemma PickedAlike<T>(a: seq<T>, b: seq<T>, order: seq<nat>)
    requires Ordering(order, |a|) && |a| == |b|
    ensures Picked(a, order) == Picked(b, order) <==> a == b
  {
    if Picked(a, order) == Picked(b, order) {
      forall i | 0 <= i < |a| ensures a[i] == b[i] {
        assert i in order;
        var k :| 0 <= k < |order| && order[k] == i;
        assert Picked(a, order)[k] == Picked(b, order)[k];
      }
    }
  }

  // ----- the whole payload: the main runbook and its endpoints

  const RUNBOOK_OBJECTS := ["runbook"]

  function RunbookPayloadSites(j: Json): seq<Site> {
    PayloadSites(j, [], RUNBOOK_OBJECTS, map[])
  }

  /** The endpoint list of a payload is replaced, if it has one. */
  function WithEndpoints(j: Json, endpoints: seq<Json>): Json {
    match Get(j, ENDPOINTS)
    case Some(Arr(_)) => Write(j, [Key(ENDPOINTS)], Some(Arr(endpoints)))
    case _ => j
  }

  /** `get("endpoint_definition_list")` is walked without a default, and again with one. */
  predicate EndpointsListed(j: Json) {
    Get(j, ENDPOINTS).Some? && Iterable(Get(j, ENDPOINTS))
  }

  /**
   What is left to do once the secrets of the main runbook are out of `t`; `order` is how the
   server returns the endpoints.
   */
  function Finished(t: Json, secrets: map<string, Json>, records: seq<SecretRecord>, kept: seq<KeptRecord>,
                    order: seq<nat>): Option<Json>
    requires Within(order, |Elements(t, ENDPOINTS)|)
  {
    var endpoints := Elements(t, ENDPOINTS);
    var returned := Picked(StripEndpoints(endpoints), order);
    var sent := WithEndpoints(t, returned);
    if !EndpointsListed(t) || !AllStrippable(endpoints) || !PatchRuns(sent, secrets, records, kept) then None
    else
      var patched := PatchPayload(sent, secrets, records, kept);
      if !AllPatchable(returned, MapsOf(endpoints)) then None
      else Some(WithEndpoints(patched, PatchEndpoints(returned, MapsOf(endpoints))))
  }

  /** The payload a runbook is first uploaded with; None when an error comes before. */
  function CreatedRunbook(j: Json): Option<Json> {
    var holders, sites := Holders(j, map[], true), RunbookPayloadSites(j);
    if !NamesStrippable(j, true) || !Completes(sites) then None else Endpointed(StripPayload(j, holders, sites))
  }

  /** A payload with its endpoints stripped too. */
  function Endpointed(t: Json): Option<Json> {
    var endpoints := Elements(t, ENDPOINTS);
    if !EndpointsListed(t) || !AllStrippable(endpoints) then None
    else Some(WithEndpoints(t, StripEndpoints(endpoints)))
  }

  /** The payload of the final update; None when the client raises an error. */
  function RunbookOutcome(j: Json, order: seq<nat>): Option<Json>
    requires Within(order, |Elements(j, ENDPOINTS)|)
  {
    var holders, sites := Holders(j, map[], true), RunbookPayloadSites(j);
    StripLeavesEndpoints(j);
    if !NamesStrippable(j, true) || !Completes(sites) then None
    else Finished(StripPayload(j, holders, sites), SecretMap(holders), Records(sites), Kept(sites), order)
  }

  /** All that is read of the payload is there, and all that is patched can be walked to. */
  predicate RunbookFits(j: Json) {
    && NamesFit(j, true) && SitesFit(j, RunbookPayloadSites(j))
    && EndpointsListed(j) && AllFit(Elements(j, ENDPOINTS))
  }

  /** The original payload, with `attrs` of secrets set and each endpoint without its default credential reference. */
  function IntendedRunbook(j: Json, order: seq<nat>): Json
    requires Within(order, |Elements(j, ENDPOINTS)|)
  {
    WithEndpoints(Marked(j, RunbookPayloadSites(j)), Picked(IntactOnes(Elements(j, ENDPOINTS)), order))
  }

  lemma OneObject(j: Json)
    ensures RunbookPayloadSites(j) == AllSites(Node(j, [Key("runbook")]), [Key("runbook")], map[], "runbook")
  {
    hide AllSites;
    var sites := AllSites(Node(j, [Key("runbook")]), [Key("runbook")], map[], "runbook");
    assert RUNBOOK_OBJECTS[..0] == [] && RUNBOOK_OBJECTS[0] == "runbook";
    assert ObjectsSites(j, [], map[]) == [] && ListsSites(j, [], map[]) == [];
    assert ObjectsSites(j, RUNBOOK_OBJECTS, map[]) == [] + sites;
    assert [] + ([] + sites) == sites;
  }

  predicate AllFitting(j: Json) {
    forall s <- RunbookPayloadSites(j) :: Fitting(j, s)
  }

  /** Neither a site nor a holder is at the endpoint list. */
  lemma SitesOfRunbook(j: Json)
    ensures Fitted(j, RunbookPayloadSites(j)) && SitesOff(RunbookPayloadSites(j))
    ensures forall s <- RunbookPayloadSites(j) :: AtRunbook(s.path) && AtRunbook(s.filed)
  {
    assert RunbookPayloadSites(j) == PayloadSites(j, [], RUNBOOK_OBJECTS, map[]);
    hide Fitted, AllSites, RunbookPayloadSites;
    PayloadWellPlaced(j, [], RUNBOOK_OBJECTS, map[]);
    var sites := AllSites(Node(j, [Key("runbook")]), [Key("runbook")], map[], "runbook");
    AllSitesPlaced(Node(j, [Key("runbook")]), [Key("runbook")], map[], "runbook");
    OneObject(j);
    forall s <- sites ensures AtRunbook(s.path) && AtRunbook(s.filed) {
      assert InObject(s, [Key("runbook")]) && FiledInObject(s, [Key("runbook")]);
    }
  }

  predicate AtRunbook(q: Path) {
    q != [] && q[0] == Key("runbook")
  }

  /** Taking the main runbook's secrets out leaves the endpoints, and commutes with replacing them. */
  lemma StripWithEndpoints(j: Json, endpoints: seq<Json>)
    ensures var holders, sites := Holders(j, map[], true), RunbookPayloadSites(j);
      && Get(StripPayload(j, holders, sites), ENDPOINTS) == Get(j, ENDPOINTS)
      && Get(Marked(j, sites), ENDPOINTS) == Get(j, ENDPOINTS)
      && WithEndpoints(StripPayload(j, holders, sites), endpoints)
          == StripPayload(WithEndpoints(j, endpoints), holders, sites)
      && WithEndpoints(Marked(j, sites), endpoints) == Marked(WithEndpoints(j, endpoints), sites)
  {
    hide Holders, RunbookPayloadSites, HolderStrip, StripEdits, Marks, KeptMarks, Apply, Fitted;
    var holders, sites, q := Holders(j, map[], true), RunbookPayloadSites(j), [Key(ENDPOINTS)];
    SitesOfRunbook(j);
    HoldersHavePlaces(j, map[], true);
    forall h <- holders ensures Diverge(h.path, q) {
    }
    HoldersMiss(holders, map[], q);
    EditsMiss(sites, q);
    EndpointsPast(j, HolderStrip(holders), endpoints);
    EndpointsPast(Apply(j, HolderStrip(holders)), StripEdits(sites), endpoints);
    EndpointsPast(j, KeptMarks(sites), endpoints);
    EndpointsPast(Apply(j, KeptMarks(sites)), Marks(sites), endpoints);
  }

  lemma EndpointsPast(j: Json, edits: seq<Edit>, endpoints: seq<Json>)
    requires Avoid(edits, [Key(ENDPOINTS)])
    ensures Get(Apply(j, edits), ENDPOINTS) == Get(j, ENDPOINTS)
    ensures WithEndpoints(Apply(j, edits), endpoints) == Apply(WithEndpoints(j, endpoints), edits)
  {
    hide Apply;
    ApplyFrame(j, edits, [Key(ENDPOINTS)]);
    OneStep(j, Key(ENDPOINTS));
    OneStep(Apply(j, edits), Key(ENDPOINTS));
    ApplyPastOne(j, edits, Edit([Key(ENDPOINTS)], Some(Arr(endpoints))));
  }

  lemma StripLeavesEndpoints(j: Json)
    ensures var t := StripPayload(j, Holders(j, map[], true), RunbookPayloadSites(j));
      Get(t, ENDPOINTS) == Get(j, ENDPOINTS) && Elements(t, ENDPOINTS) == Elements(j, ENDPOINTS)
  {
    hide Holders, RunbookPayloadSites, StripPayload;
    StripWithEndpoints(j, []);
  }

  /** With other endpoints, the main runbook has the same secrets. */
  lemma EndpointsLeaveRunbook(j: Json, endpoints: seq<Json>)
    ensures var k := WithEndpoints(j, endpoints);
      && Holders(k, map[], true) == Holders(j, map[], true) && RunbookPayloadSites(k) == RunbookPayloadSites(j)
      && NamesStrippable(k, true) == NamesStrippable(j, true) && NamesPatchable(k) == NamesPatchable(j)
      && Elements(k, CREDENTIALS) == Elements(j, CREDENTIALS)
      && forall s <- RunbookPayloadSites(j) :: Fitting(k, s) == Fitting(j, s) && Walks(k, s.filed) == Walks(j, s.filed)
  {
    var k := WithEndpoints(j, endpoints);
    OtherRoots(j, endpoints);
    hide WithEndpoints, Holders, NamesStrippable, NamesPatchable, Fitting, Lookup, Walks, Fitted;
    SameHolders(j, k);
    SameFits(j, k);
    SameRunbookSites(j, k);
    SitesOfRunbook(j);
    forall s <- RunbookPayloadSites(j)
      ensures Fitting(k, s) == Fitting(j, s) && Walks(k, s.filed) == Walks(j, s.filed)
    {
      SameBelow(j, k, s.path);
      SameBelow(j, k, s.filed);
      FittingSame(j, k, s);
    }
  }

  lemma OtherRoots(j: Json, endpoints: seq<Json>)
    ensures var k := WithEndpoints(j, endpoints);
      k.Obj? == j.Obj? && forall n: string | n != ENDPOINTS :: Get(k, n) == Get(j, n)
  {
  }

  lemma {:induction false} SameBelow(j: Json, k: Json, q: Path)
    requires Get(j, "runbook") == Get(k, "runbook") && AtRunbook(q) && j.Obj? == k.Obj?
    ensures Lookup(k, q) == Lookup(j, q) && Walks(k, q) == Walks(j, q)
  {
  }

  lemma SameRunbookSites(j: Json, k: Json)
    requires Get(j, "runbook") == Get(k, "runbook")
    ensures RunbookPayloadSites(k) == RunbookPayloadSites(j)
  {
    hide RunbookPayloadSites, AllSites;
    OneStep(j, Key("runbook"));
    OneStep(k, Key("runbook"));
    OneObject(j);
    OneObject(k);
  }

  /** The main runbook's round trip, whatever the endpoints are by then. */
  lemma MainReturns(j: Json, endpoints: seq<Json>)
    requires NamesStrippable(j, true) && Completes(RunbookPayloadSites(j))
    ensures var holders, sites, k := Holders(j, map[], true), RunbookPayloadSites(j), WithEndpoints(j, endpoints);
      && (PatchRuns(StripPayload(k, holders, sites), SecretMap(holders), Records(sites), Kept(sites))
          <==> NamesPatchable(j) && AllWalk(j, sites))
      && Get(RoundTrip(k, holders, sites), ENDPOINTS) == Get(k, ENDPOINTS)
      && (RoundTrip(k, holders, sites) == Marked(k, sites) <==> Unclashing(holders) && AllFitting(j))
  {
    var k := WithEndpoints(j, endpoints);
    hide WithEndpoints, Holders, RunbookPayloadSites, StripPayload, RoundTrip, Marked, NamesPatchable, NamesStrippable,
         Fitting, Completes,
         Unclashing, WellPlaced, Walks, PatchRuns, SecretMap, Records, Kept;
    EndpointsLeaveRunbook(j, endpoints);
    SitesOfRunbook(k);
    PatchRunsExactly(k, map[], true, RunbookPayloadSites(k));
    CredentialsAreObjects(j, true);
    PayloadRoundTripExactly(k, map[], true, RunbookPayloadSites(k));
    TripLeavesEndpoints(k);
  }

  lemma TripLeavesEndpoints(j: Json)
    ensures Get(RoundTrip(j, Holders(j, map[], true), RunbookPayloadSites(j)), ENDPOINTS) == Get(j, ENDPOINTS)
  {
    hide Holders, RunbookPayloadSites, HolderPatch, PatchKept, PatchAll, Apply, Fitted, StripPayload;
    var holders, sites, q := Holders(j, map[], true), RunbookPayloadSites(j), [Key(ENDPOINTS)];
    var secrets, t := SecretMap(holders), StripPayload(j, holders, sites);
    var found := Holders(t, map[], false);
    SitesOfRunbook(j);
    StripLeavesEndpoints(j);
    HoldersHavePlaces(t, map[], false);
    forall h <- found ensures Diverge(h.path, q) {
    }
    HoldersMiss(found, secrets, q);
    var k := Apply(t, HolderPatch(found, secrets));
    ApplyFrame(t, HolderPatch(found, secrets), q);
    PatchesMiss(k, sites, q);
    PatchesMiss(PatchKept(k, Kept(sites)), sites, q);
    OneStep(t, Key(ENDPOINTS));
    OneStep(PatchAll(PatchKept(k, Kept(sites)), Records(sites)), Key(ENDPOINTS));
  }

  /** Replacing the endpoints of two payloads that hold the same ones. */
  lemma SameWithEndpoints(a: Json, b: Json, before: seq<Json>, x: seq<Json>, y: seq<Json>)
    requires Get(a, ENDPOINTS) == Get(b, ENDPOINTS)
    requires Get(a, ENDPOINTS).Some? && Get(a, ENDPOINTS).value.Arr? ==> Get(a, ENDPOINTS).value.items == before
    requires !(Get(a, ENDPOINTS).Some? && Get(a, ENDPOINTS).value.Arr?) ==> x == y
    ensures WithEndpoints(a, x) == WithEndpoints(b, y) <==> a == b && x == y
  {
    if Get(a, ENDPOINTS).Some? && Get(a, ENDPOINTS).value.Arr? && WithEndpoints(a, x) == WithEndpoints(b, y) {
      assert Get(WithEndpoints(a, x), ENDPOINTS) == Some(Arr(x)) && Get(WithEndpoints(b, y), ENDPOINTS) == Some(Arr(y));
      assert a.fields == WithEndpoints(a, x).fields[ENDPOINTS := Arr(before)];
      assert b.fields == WithEndpoints(b, y).fields[ENDPOINTS := Arr(before)];
    }
  }

  /** The endpoints that are returned and those that were meant to be, when the payload's own fits. */
  lemma Finishing(j: Json, order: seq<nat>)
    requires Ordering(order, |Elements(j, ENDPOINTS)|) && NamesStrippable(j, true) && Completes(RunbookPayloadSites(j))
    ensures var endpoints, sites := Elements(j, ENDPOINTS), RunbookPayloadSites(j);
      var returned := Picked(StripEndpoints(endpoints), order);
      var k := WithEndpoints(j, returned);
      && (RunbookOutcome(j, order).Some? <==>
            EndpointsListed(j) && AllStrippable(endpoints) && NamesPatchable(j) && AllWalk(j, sites)
            && AllPatchable(returned, MapsOf(endpoints)))
      && (RunbookOutcome(j, order).Some? ==>
            RunbookOutcome(j, order).value
            == WithEndpoints(RoundTrip(k, Holders(j, map[], true), sites), PatchEndpoints(returned, MapsOf(endpoints))))
  {
    var endpoints := Elements(j, ENDPOINTS);
    var returned := Picked(StripEndpoints(endpoints), order);
    hide WithEndpoints, Holders, RunbookPayloadSites, StripPayload, Marked, NamesPatchable, NamesStrippable, Fitting,
         Completes, Unclashing,
         PatchRuns, AllWalk, PatchPayload, SecretMap, Records, Kept, EndpointsListed, HoldersOf, StripEndpoints,
         PatchEndpoints, Picked, Elements, MapsOf, AllStrippable, AllPatchable, AllFitting;
    StripLeavesEndpoints(j);
    StripWithEndpoints(j, returned);
    MainReturns(j, returned);
  }

  /**
   The whole upload of a runbook with endpoints, in whatever order the server returns them: the client
   sends its update exactly when all it reads is there and all it patches can be walked to; and that
   update is the original payload, with only `attrs` of secrets set and default credential references
   gone, exactly when moreover no names clash in the runbook, every secret found by path fits, and each
   endpoint finds its own secrets in the map of its name.
   */
  lemma RunbookLaw(j: Json, order: seq<nat>)
    requires Ordering(order, |Elements(j, ENDPOINTS)|)
    ensures RunbookOutcome(j, order).Some? <==> RunbookFits(j)
    ensures RunbookOutcome(j, order) == Some(IntendedRunbook(j, order)) <==>
      && RunbookFits(j) && Unclashing(Holders(j, map[], true)) && AllFitting(j)
      && AllAnswered(Elements(j, ENDPOINTS))
  {
    SentWhenStrippable(j, order);
    FitsWhenStrippable(j);
    hide *;
    if NamesStrippable(j, true) && Completes(RunbookPayloadSites(j)) {
      StrippableLaw(j, order);
    }
  }

  lemma FitsWhenStrippable(j: Json)
    ensures RunbookFits(j) ==> NamesStrippable(j, true) && Completes(RunbookPayloadSites(j))
  {
    hide NamesStrippable, Completes, RunbookPayloadSites;
  }

  lemma StrippableLaw(j: Json, order: seq<nat>)
    requires Ordering(order, |Elements(j, ENDPOINTS)|)
    requires NamesStrippable(j, true) && Completes(RunbookPayloadSites(j))
    ensures RunbookOutcome(j, order).Some? <==> RunbookFits(j)
    ensures RunbookOutcome(j, order) == Some(IntendedRunbook(j, order)) <==>
      && RunbookFits(j) && Unclashing(Holders(j, map[], true)) && AllFitting(j)
      && AllAnswered(Elements(j, ENDPOINTS))
  {
    var endpoints := Elements(j, ENDPOINTS);
    hide RunbookOutcome, IntendedRunbook, NamesStrippable, NamesPatchable, Completes, AllWalk, Elements,
         EndpointsListed, RunbookPayloadSites, Holders, HoldersOf, AllFitting, Unclashing, StripEndpoints,
         PatchEndpoints, IntactOnes, Picked, MapsOf, AllStrippable, AllPatchable, AllFit, AllAnswered, Ordering;
    Finishing(j, order);
    FitsIsStrippable(endpoints);
    if AllStrippable(endpoints) {
      AnyOrderRestores(endpoints, order);
      if RunbookFits(j) {
        EndsAsIntended(j, order);
      }
    }
  }

  lemma SentWhenStrippable(j: Json, order: seq<nat>)
    requires Ordering(order, |Elements(j, ENDPOINTS)|)
    ensures RunbookOutcome(j, order).Some? ==> NamesStrippable(j, true) && Completes(RunbookPayloadSites(j))
  {
    hide NamesStrippable, Completes, RunbookPayloadSites, Finished;
  }

  lemma FitsIsStrippable(endpoints: seq<Json>)
    ensures AllFit(endpoints) ==> AllStrippable(endpoints)
  {
    hide NamesStrippable, NamesPatchable;
  }

  lemma EndsAsIntended(j: Json, order: seq<nat>)
    requires Ordering(order, |Elements(j, ENDPOINTS)|) && RunbookFits(j)
    ensures var endpoints, sites := Elements(j, ENDPOINTS), RunbookPayloadSites(j);
      var returned := Picked(StripEndpoints(endpoints), order);
      RunbookOutcome(j, order) == Some(IntendedRunbook(j, order)) <==>
        && RunbookOutcome(j, order).Some?
        && PatchEndpoints(returned, MapsOf(endpoints)) == Picked(IntactOnes(endpoints), order)
        && Unclashing(Holders(j, map[], true)) && AllFitting(j)
  {
    var endpoints, sites, holders := Elements(j, ENDPOINTS), RunbookPayloadSites(j), Holders(j, map[], true);
    var returned := Picked(StripEndpoints(endpoints), order);
    var patched, intact := PatchEndpoints(returned, MapsOf(endpoints)), Picked(IntactOnes(endpoints), order);
    var k := WithEndpoints(j, returned);
    Finishing(j, order);
    MainReturns(j, returned);
    MarkedWithEndpoints(j, returned, intact);
    hide WithEndpoints, Holders, RunbookPayloadSites, RoundTrip, Marked, Fitting, Completes, Unclashing, NamesFit,
         RunbookOutcome,
         EndpointsListed, AllFit, StripEndpoints, PatchEndpoints, IntactOnes, MapsOf, AllStrippable, AllPatchable,
         AllFitting, NamesStrippable;
    NoListNoOrder(j, order);
    SameWithEndpoints(RoundTrip(k, holders, sites), Marked(k, sites), returned, patched, intact);
  }

  lemma MarkedWithEndpoints(j: Json, returned: seq<Json>, intact: seq<Json>)
    ensures var sites, k := RunbookPayloadSites(j), WithEndpoints(j, returned);
      && Get(Marked(k, sites), ENDPOINTS) == Get(k, ENDPOINTS)
      && Get(k, ENDPOINTS) == (if HasList(j) then Some(Arr(returned)) else Get(j, ENDPOINTS))
      && WithEndpoints(Marked(j, sites), intact) == WithEndpoints(Marked(k, sites), intact)
  {
    StripWithEndpoints(j, returned);
    StripWithEndpoints(WithEndpoints(j, returned), returned);
    EndpointsLeaveRunbook(j, returned);
    hide RunbookPayloadSites, Marked;
  }

  predicate HasList(j: Json) {
    Get(j, ENDPOINTS).Some? && Get(j, ENDPOINTS).value.Arr?
  }

  lemma NoListNoOrder(j: Json, order: seq<nat>)
    requires Ordering(order, |Elements(j, ENDPOINTS)|)
    ensures !HasList(j) ==> order == []
  {
    assert !HasList(j) ==> Elements(j, ENDPOINTS) == [];
    assert order != [] ==> order[0] < |Elements(j, ENDPOINTS)|;
  }

  // ----- the passes, in the client's order

  /** The first loop over endpoints, before the upload. */
  method StripAllEndpoints(endpoints: seq<Json>) returns (ok: bool, stripped: seq<Json>, maps: SecretMaps)
    ensures ok == AllStrippable(endpoints)
    ensures ok ==> stripped == StripEndpoints(endpoints) && maps == MapsOf(endpoints)
  {
    hide HoldersOf, SecretMap, Strippable, StripEndpoint;
    stripped, maps := endpoints, map[];
    var i := 0;
    while i < |endpoints|
      invariant i <= |endpoints| && |stripped| == |endpoints|
      invariant forall k | 0 <= k < i :: Strippable(endpoints[k]) && stripped[k] == StripEndpoint(endpoints[k])
      invariant forall k | i <= k < |endpoints| :: stripped[k] == endpoints[k]
      invariant maps == MapsOf(endpoints[..i])
    {
      assert endpoints[..i+1][..i] == endpoints[..i];
      var endpoint, secrets := StripOne(stripped[i]);
      if endpoint.None? {
        return false, stripped, maps;
      }
      maps := maps[NameOf(stripped[i]) := secrets];
      stripped := stripped[i := endpoint.value];
      i := i + 1;
    }
    assert endpoints[..i] == endpoints;
    ok := true;
  }

  method StripOne(endpoint: Json) returns (stripped: Option<Json>, secrets: map<string, Json>)
    ensures stripped == if Strippable(endpoint) then Some(StripEndpoint(endpoint)) else None
    ensures stripped.Some? ==> secrets == SecretMap(HoldersOf(endpoint))
  {
    hide Holders, HolderStrip, SecretMap, Apply, NamesStrippable, Completes, PayloadSites, Hashable;
    if !Hashable(NameOf(endpoint)) {
      return None, map[];
    }
    var stripper := new Stripper(AttrsOf(endpoint), map[]);
    assert EntityNames([], []);
    EmptyPayload(AttrsOf(endpoint));
    var ok := stripper.StripSecrets([], []);
    if !ok {
      return None, map[];
    }
    secrets := stripper.secretMap;
    assert map[] + SecretMap(HoldersOf(endpoint)) == SecretMap(HoldersOf(endpoint));
    stripped := Some(WithAttrs(endpoint, Write(stripper.tree, [Key(DEFAULT_CREDENTIAL)], None)));
  }

  lemma EmptyPayload(j: Json)
    ensures PayloadSites(j, [], [], map[]) == [] && StripEdits([]) == [] && Completes([])
  {
  }

  /** The second loop over endpoints, on what the server returned. */
  method PatchAllEndpoints(returned: seq<Json>, maps: SecretMaps) returns (ok: bool, patched: seq<Json>)
    ensures ok == AllPatchable(returned, maps)
    ensures ok ==> patched == PatchEndpoints(returned, maps)
  {
    hide PatchPayload, NamesPatchable, PatchRuns;
    patched := returned;
    var i := 0;
    while i < |returned|
      invariant i <= |returned| && |patched| == |returned|
      invariant forall k | 0 <= k < i :: Patchable(returned[k], maps) && patched[k] == PatchEndpoint(returned[k], maps)
      invariant forall k | i <= k < |returned| :: patched[k] == returned[k]
    {
      var endpoint := patched[i];
      assert endpoint in returned;
      if NameOf(endpoint) !in maps {
        return false, patched;
      }
      var patcher := new Patcher(AttrsOf(endpoint));
      NothingToWalk(AttrsOf(endpoint), maps[NameOf(endpoint)]);
      var fits := patcher.PatchSecrets(maps[NameOf(endpoint)], [], []);
      if !fits {
        return false, patched;
      }
      patched := patched[i := WithAttrs(endpoint, patcher.resources)];
      i := i + 1;
    }
    ok := true;
  }

  lemma NothingToWalk(j: Json, secrets: map<string, Json>)
    ensures PatchRuns(j, secrets, [], []) == NamesPatchable(j)
  {
  }

  lemma RunbookNames()
    ensures EntityNames([], RUNBOOK_OBJECTS)
  {
    assert [] + RUNBOOK_OBJECTS == ["runbook"];
    assert "runbook"[0] != "authentication"[0] && "runbook"[0] != CREDENTIALS[0];
  }

  /** `upload_with_secrets` of a runbook, with a server that returns what it was sent, endpoints in the given order. */
  method UploadRunbook(resources: Json, order: seq<nat>) returns (created: Option<Json>, update: Option<Json>)
    requires Within(order, |Elements(resources, ENDPOINTS)|)
    ensures created == CreatedRunbook(resources)
    ensures update == RunbookOutcome(resources, order)
  {
    hide Holders, HolderStrip, StripEdits, SecretMap, Apply, PatchPayload, After, Held, Records, Kept, Completes,
         Elements, WithEndpoints,
         PatchRuns, NamesStrippable, NamesPatchable, AllStrippable, AllPatchable, EndpointsListed;
    RunbookNames();
    var stripper := new Stripper(resources, map[]);
    var ok := stripper.StripSecrets([], RUNBOOK_OBJECTS);
    if !ok {
      return None, None;
    }
    StripLeavesEndpoints(resources);
    RunbookWork(resources);
    created, update := FinishUpload(stripper.tree, stripper.secretMap, stripper.secretVariables, stripper.notStripped,
                                    order);
  }

  lemma RunbookWork(j: Json)
    ensures var holders, sites := Holders(j, map[], true), RunbookPayloadSites(j);
      After(Held(Work(j, map[], [], []), holders), sites)
      == Work(StripPayload(j, holders, sites), SecretMap(holders), Records(sites), Kept(sites))
  {
    hide Holders, RunbookPayloadSites;
    var holders, sites := Holders(j, map[], true), RunbookPayloadSites(j);
    assert map[] + SecretMap(holders) == SecretMap(holders) && [] + Records(sites) == Records(sites) && []
        + Kept(sites) == Kept(sites);
  }

  /** The passes after the main runbook's secrets were taken out. */
  method FinishUpload(t: Json, secrets: map<string, Json>, records: seq<SecretRecord>, kept: seq<KeptRecord>,
                      order: seq<nat>)
    returns (created: Option<Json>, update: Option<Json>)
    requires Within(order, |Elements(t, ENDPOINTS)|)
    ensures created == Endpointed(t)
    ensures update == Finished(t, secrets, records, kept, order)
  {
    hide PatchPayload, PatchRuns, AllStrippable, AllPatchable, WithEndpoints, Elements;
    if !EndpointsListed(t) {
      return None, None;
    }
    var ok, stripped, maps := StripAllEndpoints(Elements(t, ENDPOINTS));
    if !ok {
      return None, None;
    }
    created := Some(WithEndpoints(t, stripped));
    var returned := Picked(stripped, order);
    var patcher := new Patcher(WithEndpoints(t, returned));
    ok := patcher.PatchSecrets(secrets, records, kept);
    if !ok {
      return created, None;
    }
    var patched;
    ok, patched := PatchAllEndpoints(returned, maps);
    if !ok {
      return created, None;
    }
    update := Some(WithEndpoints(patcher.resources, patched));
  }
}
