/** What the records of a strip say: which secrets are recorded, where, and that order is irrelevant. */
module SecretOutcome {
  import opened Options
  import opened JsonTree
  import opened SecretSites
  import opened SecretWalk
  import opened SecretRoundTrip
  import opened SecretPlaces
  import opened SecretPayload
  import opened SecretLaw
  import opened SecretEntities
  import opened StripPasses
  import opened SecretInventory

  /** The paths recorded over one strip are pairwise distinct, those of kept secrets included. */
  ghost predicate DistinctFiles(sites: seq<Site>) {
    && PairwiseApart(Records(sites))
    && (forall i, k | 0 <= i < k < |Records(sites)| :: Records(sites)[i].path != Records(sites)[k].path)
    && (forall r, k | r in Records(sites) && k in Kept(sites) :: r.path != k.path)
  }

  /** So the patch may take the records in any order, in any tree, with the same result or error. */
  lemma PatchInAnyOrder(sites: seq<Site>, tree: Json, order: seq<SecretRecord>)
    requires AllFiledApart(sites) && multiset(order) == multiset(Records(sites))
    ensures DistinctFiles(sites)
    ensures PatchAll(tree, order) == PatchAll(tree, Records(sites))
    ensures RecordsWalk(tree, order) == RecordsWalk(tree, Records(sites))
  {
    RecordsAreApart(sites);
    PatchOrderIrrelevant(tree, Records(sites), order);
    forall i, k | 0 <= i < k < |Records(sites)| ensures Records(sites)[i].path != Records(sites)[k].path {
      assert ApartPaths(Records(sites)[i].path, Records(sites)[k].path);
      NotApartFromItself(Records(sites)[i].path);
    }
    forall r, k | r in Records(sites) && k in Kept(sites) ensures r.path != k.path {
      var s := RecordOrigin(sites, r);
      var t := KeptOrigin(sites, k);
      FiledApartOrSame(sites, s, t);
      NotApartFromItself(r.path);
    }
  }

  /** For every blueprint, runbook and endpoint that is stripped without an error, misfiled secrets included. */
  lemma PayloadInAnyOrder(j: Json, lists: seq<string>, objects: seq<string>, decompiled: Decompiled, tree: Json,
                          order: seq<SecretRecord>)
    requires EntityNames(lists, objects) && Completes(PayloadSites(j, lists, objects, decompiled))
    requires multiset(order) == multiset(Records(PayloadSites(j, lists, objects, decompiled)))
    ensures DistinctFiles(PayloadSites(j, lists, objects, decompiled))
    ensures PatchAll(tree, order) == PatchAll(tree, Records(PayloadSites(j, lists, objects, decompiled)))
    ensures RecordsWalk(tree, order) == RecordsWalk(tree, Records(PayloadSites(j, lists, objects, decompiled)))
  {
    hide PayloadSites, DistinctFiles;
    PayloadWellPlaced(j, lists, objects, decompiled);
    PatchInAnyOrder(PayloadSites(j, lists, objects, decompiled), tree, order);
  }

  /** And for every provider. */
  lemma ProviderInAnyOrder(j: Json, decompiled: Decompiled, tree: Json, order: seq<SecretRecord>)
    requires Completes(ProviderSites(j, decompiled))
             && multiset(order) == multiset(Records(ProviderSites(j, decompiled)))
    ensures DistinctFiles(ProviderSites(j, decompiled))
    ensures PatchAll(tree, order) == PatchAll(tree, Records(ProviderSites(j, decompiled)))
    ensures RecordsWalk(tree, order) == RecordsWalk(tree, Records(ProviderSites(j, decompiled)))
  {
    hide ProviderSites, DistinctFiles;
    ProviderWellPlaced(j, decompiled);
    PatchInAnyOrder(ProviderSites(j, decompiled), tree, order);
  }

  lemma {:induction false} NotApartFromItself(p: Path)
    ensures !ApartPaths(p, p) && !Diverge(p, p)
  {
    if p != [] {
      NotApartFromItself(p[1..]);
    }
  }

  /**
   A stripped secret filed where it was found is recorded with its value, and the path of its record
   leads to an object in the payload and in what the strip leaves of it, which the patch walks.
   */
  lemma RecordsResolve(j: Json, holders: seq<Holder>, sites: seq<Site>, s: Site)
    requires WellPlaced(j, sites) && SitesOff(sites) && (forall h <- holders :: HolderPlace(h.path))
    requires s in sites && Stripped(s) && s.filed == s.path
    ensures RecordLeads(j, StripPayload(j, holders, sites), sites, s)
  {
    RecordExists(sites, s);
    SiteStays(j, holders, sites, s);
  }

  /** The record of `s` and the objects its path leads to, in `j` and, without the secret, in `stripped`. */
  ghost predicate RecordLeads(j: Json, stripped: Json, sites: seq<Site>, s: Site) {
    var r := SecretRecord(s.filed, OrNull(s.value), s.name);
    && r in Records(sites)
    && Lookup(j, r.path).Some? && Lookup(j, r.path).value.Obj?
        && r.secret == OrNull(Get(Lookup(j, r.path).value, "value"))
    && Lookup(stripped, r.path).Some? && Lookup(stripped, r.path).value.Obj?
  }

  lemma PayloadRecordsResolve(j: Json, lists: seq<string>, objects: seq<string>, decompiled: Decompiled, s: Site)
    requires EntityNames(lists, objects) && Completes(PayloadSites(j, lists, objects, decompiled))
    requires s in PayloadSites(j, lists, objects, decompiled) && Stripped(s) && s.filed == s.path
    ensures var sites := PayloadSites(j, lists, objects, decompiled);
      RecordLeads(j, StripPayload(j, Holders(j, decompiled, true), sites), sites, s)
  {
    hide PayloadSites, Holders, RecordLeads, Completes, StripPayload;
    PayloadWellPlaced(j, lists, objects, decompiled);
    HoldersHavePlaces(j, decompiled, true);
    RecordsResolve(j, Holders(j, decompiled, true), PayloadSites(j, lists, objects, decompiled), s);
  }

  lemma ProviderRecordsResolve(j: Json, decompiled: Decompiled, s: Site)
    requires Completes(ProviderSites(j, decompiled))
    requires s in ProviderSites(j, decompiled) && Stripped(s) && s.filed == s.path
    ensures var sites := ProviderSites(j, decompiled);
      RecordLeads(j, StripPayload(j, Holders(j, decompiled, false), sites), sites, s)
  {
    hide ProviderSites, Holders, RecordLeads, Completes, StripPayload;
    ProviderWellPlaced(j, decompiled);
    HoldersHavePlaces(j, decompiled, false);
    RecordsResolve(j, Holders(j, decompiled, false), ProviderSites(j, decompiled), s);
  }

  /**
   Every site with a value ends in exactly one of the two lists: among the stripped ones exactly
   when its name and value are not what its context recorded, and only the others keep the value.
   */
  lemma {:induction false} Partition(j: Json, sites: seq<Site>, s: Site)
    requires WellPlaced(j, sites) && s in sites && s.kind != OptionPassword && s.kind != Missing
    requires Truthy(OrNull(s.value))
    ensures (exists r <- Records(sites) :: r.path == s.filed) <==> IsModified(s.known, s.name, OrNull(s.value))
    ensures (exists k <- Kept(sites) :: k.path == s.filed) <==> !IsModified(s.known, s.name, OrNull(s.value))
    ensures Lookup(Apply(j, StripEdits(sites)), s.path + [VALUE])
         == if IsModified(s.known, s.name, OrNull(s.value)) then None else s.value
  {
    RecordExists(sites, s);
    if r :| r in Records(sites) && r.path == s.filed {
      var t := RecordOrigin(sites, r);
      FiledOnlyThere(sites, s, t);
    }
    if k :| k in Kept(sites) && k.path == s.filed {
      var t := KeptOrigin(sites, k);
      FiledOnlyThere(sites, s, t);
    }
    if Stripped(s) {
      StripRead(j, sites, s, [VALUE]);
    } else {
      UnstrippedValue(j, sites, s);
    }
  }

  /** No other site is filed where `s` is. */
  lemma FiledOnlyThere(sites: seq<Site>, s: Site, t: Site)
    requires AllFiledApart(sites) && s in sites && t in sites && t.filed == s.filed
    ensures t == s
  {
    FiledApartOrSame(sites, s, t);
    NotApartFromItself(s.filed);
  }

  lemma NoOtherEdit(sites: seq<Site>, s: Site, e: Edit)
    requires AllApart(sites) && s in sites && !Stripped(s) && e in StripEdits(sites)
    ensures Diverge(e.path, s.path + [VALUE])
  {
    var t := EditsOfSites(sites, e);
    ApartOrSame(sites, s, t);
    var x := OfSiteSuffix(e, t);
    ApartWrites(t, s, x, [VALUE]);
  }

  lemma UnstrippedValue(j: Json, sites: seq<Site>, s: Site)
    requires WellPlaced(j, sites) && s in sites && !Stripped(s)
    ensures Lookup(Apply(j, StripEdits(sites)), s.path + [VALUE]) == s.value
  {
    forall e <- StripEdits(sites) ensures Diverge(e.path, s.path + [VALUE]) {
      NoOtherEdit(sites, s, e);
    }
    ApplyFrame(j, StripEdits(sites), s.path + [VALUE]);
    LookupSplit(j, s.path, [VALUE]);
    OneStep(Lookup(j, s.path).value, VALUE);
  }

  // ----- what becomes of each secret

  /** Decompilation recorded this very value under its context and name. */
  predicate WasKnown(s: Site) {
    s.kind != OptionPassword && s.name.Str? && s.name.s in s.known && s.known[s.name.s] == OrNull(s.value)
  }

  /** What stands where a secret was taken from. */
  predicate Replaced(t: Json, s: Site) {
    var unset := Obj(map["is_secret_modified" := Bool(false), "secret_reference" := Null]);
    var unmodified := Obj(map["is_secret_modified" := Bool(false)]);
    match s.kind
    case Variable => Lookup(t, s.path + [Key("value")]).None? && Lookup(t, s.path + [Key("attrs")]) == Some(unset)
    case OptionPassword => Lookup(t, s.path) == Some(Obj(map["value" := Null, "attrs" := unmodified]))
    case TaskPassword => Lookup(t, s.path) == Some(Obj(map["attrs" := unset]))
    case AuthPassword => Lookup(t, s.path) == Some(Obj(map["attrs" := unmodified]))
    case Missing => false
  }

  /**
   After a strip that leaves `t` and two lists: a secret that was decompiled with this value stays, and
   is listed as kept when it has one; any other is taken out, replaced and recorded with its value.
   */
  ghost predicate Accounted(t: Json, records: seq<SecretRecord>, kept: seq<KeptRecord>, s: Site) {
    if WasKnown(s) then
      && Lookup(t, s.path + [Key("value")]) == s.value
      && (forall r <- records :: r.path != s.filed)
      && (forall k <- kept :: k.path == s.filed ==> k == KeptRecord(s.filed, OrNull(s.value)))
      && (KeptRecord(s.filed, OrNull(s.value)) in kept <==> Truthy(OrNull(s.value)))
    else
      && Replaced(t, s)
      && (forall r <- records :: r.path == s.filed ==> r == SecretRecord(s.filed, OrNull(s.value), s.name))
      && SecretRecord(s.filed, OrNull(s.value), s.name) in records
      && (forall k <- kept :: k.path != s.filed)
  }

  lemma KnownIsNotStripped(s: Site)
    requires s.kind != Missing
    ensures WasKnown(s) <==> !Stripped(s)
  {
  }

  lemma SiteAccounted(j: Json, sites: seq<Site>, s: Site)
    requires WellPlaced(j, sites) && Completes(sites) && s in sites
    ensures Accounted(Apply(j, StripEdits(sites)), Records(sites), Kept(sites), s)
  {
    assert !Fails(s);
    KnownIsNotStripped(s);
    RecordExists(sites, s);
    forall r <- Records(sites) | r.path == s.filed
      ensures Stripped(s) && r == SecretRecord(s.filed, OrNull(s.value), s.name)
    {
      var t := RecordOrigin(sites, r);
      FiledOnlyThere(sites, s, t);
    }
    forall k <- Kept(sites) | k.path == s.filed ensures KeptInPlace(s) && k == KeptRecord(s.filed, OrNull(s.value)) {
      var t := KeptOrigin(sites, k);
      FiledOnlyThere(sites, s, t);
    }
    hide Apply, Lookup, StripEdits, IsModified, WasKnown, WellPlaced, Completes;
    if Stripped(s) {
      SiteReplaced(j, sites, s);
      hide Replaced;
    } else {
      UnstrippedValue(j, sites, s);
    }
  }

  lemma SiteReplaced(j: Json, sites: seq<Site>, s: Site)
    requires WellPlaced(j, sites) && s in sites && Stripped(s)
    ensures Replaced(Apply(j, StripEdits(sites)), s)
  {
    hide Apply, Lookup, StripEdits;
    if s.kind == Variable {
      StripRead(j, sites, s, [VALUE]);
      StripRead(j, sites, s, [ATTRS]);
    } else {
      var k, m, after := StripAround(j, sites, s);
      OwnStrip(k, s);
      OthersAvoid(StripEdits(after), after, s, []);
      assert s.path + [] == s.path;
      ApplyFrame(m, StripEdits(after), s.path);
    }
  }

  /** Credentials and authentication do not meet these secrets. */
  lemma PlacedAfterHolders(j: Json, holders: seq<Holder>, sites: seq<Site>)
    requires WellPlaced(j, sites) && SitesOff(sites) && forall h <- holders :: HolderPlace(h.path)
    ensures WellPlaced(Apply(j, HolderStrip(holders)), sites)
  {
    hide Apply, Lookup, HolderStrip, Off, HolderPlace;
    var k := Apply(j, HolderStrip(holders));
    forall s <- sites ensures Truthful(k, s) && Located(k, s) {
      HoldersAvoid(holders, map[], s.path);
      HoldersAvoid(holders, map[], s.filed);
      ApplyFrame(j, HolderStrip(holders), s.path);
      ApplyFrame(j, HolderStrip(holders), s.filed);
      FittingSame(j, k, s);
    }
  }

  /** Every secret of a blueprint, runbook or endpoint, over one strip that ends without an error. */
  lemma SecretsAccounted(j: Json, lists: seq<string>, objects: seq<string>, decompiled: Decompiled, s: Site)
    requires EntityNames(lists, objects) && Completes(PayloadSites(j, lists, objects, decompiled))
    requires OfPayload(s, j, lists, objects, decompiled)
    ensures var holders, sites := Holders(j, decompiled, true), PayloadSites(j, lists, objects, decompiled);
      Accounted(StripPayload(j, holders, sites), Records(sites), Kept(sites), s)
  {
    hide PayloadSites, Holders, HolderStrip, StripEdits, Apply, Records, Kept, Accounted, OfPayload, Completes,
         WellPlaced;
    var holders, sites := Holders(j, decompiled, true), PayloadSites(j, lists, objects, decompiled);
    PayloadSitesAre(j, lists, objects, decompiled, s);
    PayloadWellPlaced(j, lists, objects, decompiled);
    HoldersHavePlaces(j, decompiled, true);
    PlacedAfterHolders(j, holders, sites);
    SiteAccounted(Apply(j, HolderStrip(holders)), sites, s);
  }

  /** The site of the password of an HTTP task. */
  function PasswordOf(task: Json, p: Path, known: Known): Site {
    var auth := Node(task, [Key("attrs"), Key("authentication")]);
    var q := p + [Key("attrs"), Key("authentication"), Key("basic_auth"), Key("password")];
    Site(TaskPassword, q, q, Node(auth, [Key("basic_auth"), Key("username")]),
         Get(Node(auth, [Key("basic_auth"), Key("password")]), "value"), known)
  }

  /** One of them, place by place: the password of an HTTP task of an action that is reached. */
  lemma TaskPasswordAccounted(j: Json, lists: seq<string>, objects: seq<string>, decompiled: Decompiled, k: string,
                              i: nat,
                              a: nat, t: nat)
    requires EntityNames(lists, objects) && Completes(PayloadSites(j, lists, objects, decompiled))
    requires k in lists && i < |Elements(j, k)| && Reached(Elements(Elements(j, k)[i], "action_list"), a)
    requires var runbook := OrNull(Get(Elements(Elements(j, k)[i], "action_list")[a], "runbook"));
      var tasks := Elements(runbook, "task_definition_list");
      && t < |tasks| && Typed(tasks[t], "type", "HTTP")
      && Typed(Node(tasks[t], [Key("attrs"), Key("authentication")]), "auth_type", "basic")
    ensures var obj := Elements(j, k)[i];
      var action := Elements(obj, "action_list")[a];
      var runbook := OrNull(Get(action, "runbook"));
      var task := Elements(runbook, "task_definition_list")[t];
      var p := [Key(k), Idx(i)] + [Key("action_list")] + [Idx(a)] + [Key("runbook")] + [Key("task_definition_list")]
          + [Idx(t)];
      var context := k + "." + NameOf(obj) + ".action_list" + "." + NameOf(action) + ".runbook" + "."
                     + NameOf(runbook) + ".task_definition_list" + "." + NameOf(task) + ".basic_auth";
      var holders, sites := Holders(j, decompiled, true), PayloadSites(j, lists, objects, decompiled);
      Accounted(StripPayload(j, holders, sites), Records(sites), Kept(sites),
                PasswordOf(task, p, Under(decompiled, context)))
  {
    var obj := Elements(j, k)[i];
    var action := Elements(obj, "action_list")[a];
    var runbook := OrNull(Get(action, "runbook"));
    var task := Elements(runbook, "task_definition_list")[t];
    var r := [Key(k), Idx(i)] + [Key("action_list")] + [Idx(a)] + [Key("runbook")];
    var here := k + "." + NameOf(obj) + ".action_list" + "." + NameOf(action) + ".runbook";
    var context := here + "." + NameOf(runbook) + ".task_definition_list";
    var s := PasswordOf(task, r + [Key("task_definition_list")] + [Idx(t)],
                          Under(decompiled, context + "." + NameOf(task) + ".basic_auth"));
    TaskPasswordIsOne(task, r + [Key("task_definition_list")] + [Idx(t)], decompiled, context);
    hide *;
    TaskInRunbook(s, runbook, t, r, decompiled, here);
    RunbookInObject(s, obj, a, [Key(k), Idx(i)], decompiled, k);
    ObjectInPayload(s, j, lists, objects, decompiled, k, i);
    SecretsAccounted(j, lists, objects, decompiled, s);
  }

  lemma TaskPasswordIsOne(task: Json, p: Path, decompiled: Decompiled, context: string)
    requires Typed(task, "type", "HTTP")
             && Typed(Node(task, [Key("attrs"), Key("authentication")]), "auth_type", "basic")
    ensures OfTask(PasswordOf(task, p, Under(decompiled, context + "." + NameOf(task) + ".basic_auth")), task, p,
                   decompiled,
                   context)
  {
    hide Lookup, Typed, NameOf, OfList;
  }

  /** And of a provider. */
  lemma ProviderAccounted(j: Json, decompiled: Decompiled, s: Site)
    requires Completes(ProviderSites(j, decompiled)) && OfProvider(s, j, decompiled)
    ensures var holders, sites := Holders(j, decompiled, false), ProviderSites(j, decompiled);
      Accounted(StripPayload(j, holders, sites), Records(sites), Kept(sites), s)
  {
    hide ProviderSites, Holders, HolderStrip, StripEdits, Apply, Records, Kept, Accounted, OfProvider, Completes,
         WellPlaced;
    var holders, sites := Holders(j, decompiled, false), ProviderSites(j, decompiled);
    ProviderSitesAre(j, decompiled, s);
    ProviderWellPlaced(j, decompiled);
    HoldersHavePlaces(j, decompiled, false);
    PlacedAfterHolders(j, holders, sites);
    SiteAccounted(Apply(j, HolderStrip(holders)), sites, s);
  }

  /** Nothing is recorded or kept but secrets of the payload. */
  lemma OnlySecretsListed(j: Json, lists: seq<string>, objects: seq<string>, decompiled: Decompiled)
    requires Completes(PayloadSites(j, lists, objects, decompiled))
    ensures var sites := PayloadSites(j, lists, objects, decompiled);
      && (forall r <- Records(sites) ::
            exists s :: OfPayload(s, j, lists, objects, decompiled) && !WasKnown(s) && r.path == s.filed)
      && (forall k <- Kept(sites) ::
            exists s :: OfPayload(s, j, lists, objects, decompiled) && WasKnown(s) && k.path == s.filed)
  {
    hide PayloadSites, OfPayload, WasKnown;
    var sites := PayloadSites(j, lists, objects, decompiled);
    forall r <- Records(sites)
      ensures exists s :: OfPayload(s, j, lists, objects, decompiled) && !WasKnown(s) && r.path == s.filed
    {
      var s := RecordOrigin(sites, r);
      KnownIsNotStripped(s);
      PayloadSitesAre(j, lists, objects, decompiled, s);
    }
    forall k <- Kept(sites)
      ensures exists s :: OfPayload(s, j, lists, objects, decompiled) && WasKnown(s) && k.path == s.filed
    {
      var s := KeptOrigin(sites, k);
      KnownIsNotStripped(s);
      PayloadSitesAre(j, lists, objects, decompiled, s);
    }
  }

  /** A place the strip writes to for this secret. */
  predicate Writes(s: Site, q: Path) {
    if s.kind == Variable then !Diverge(s.path + [Key("value")], q) || !Diverge(s.path + [Key("attrs")], q)
    else !Diverge(s.path, q)
  }

  /** All else is uploaded as it was, credentials and authentication aside. */
  lemma {:induction false} NothingElseStripped(j: Json, lists: seq<string>, objects: seq<string>,
                                               decompiled: Decompiled, q: Path)
    requires Completes(PayloadSites(j, lists, objects, decompiled))
    requires q != [] && q[0] != Key("authentication") && q[0] != Key("credential_definition_list")
    requires forall s | OfPayload(s, j, lists, objects, decompiled) && !WasKnown(s) :: !Writes(s, q)
    ensures var t := StripPayload(j, Holders(j, decompiled, true), PayloadSites(j, lists, objects, decompiled));
      Lookup(t, q) == Lookup(j, q)
  {
    hide PayloadSites, OfPayload, Holders, HolderStrip, Apply, Lookup, WasKnown;
    var holders, sites := Holders(j, decompiled, true), PayloadSites(j, lists, objects, decompiled);
    HoldersHavePlaces(j, decompiled, true);
    HoldersAvoid(holders, map[], q);
    ApplyFrame(j, HolderStrip(holders), q);
    forall e <- StripEdits(sites) ensures Diverge(e.path, q) {
      var s := EditOrigin(sites, e);
      KnownIsNotStripped(s);
      PayloadSitesAre(j, lists, objects, decompiled, s);
    }
    ApplyFrame(Apply(j, HolderStrip(holders)), StripEdits(sites), q);
  }

  // ----- what the payload that comes back says of each secret

  lemma SiteMarked(j: Json, sites: seq<Site>, s: Site)
    requires WellPlaced(j, sites) && Completes(sites) && s in sites && (WasKnown(s) ==> Truthy(OrNull(s.value)))
    ensures Lookup(Marked(j, sites), s.path + [Key("attrs")])
         == Some(Obj(map["is_secret_modified" := Bool(!WasKnown(s))]))
  {
    assert !Fails(s);
    KnownIsNotStripped(s);
    if Stripped(s) {
      MarkedRead(j, sites, s, [ATTRS]);
    } else {
      KeptMarksAt(j, sites, s);
    }
  }

  lemma MarkedElsewhere(j: Json, sites: seq<Site>, q: Path)
    requires forall s | s in sites :: Diverge(s.path + [Key("attrs")], q)
    ensures Lookup(Marked(j, sites), q) == Lookup(j, q)
  {
    hide Apply, Marks, KeptMarks;
    forall e | e in KeptMarks(sites) ensures Diverge(e.path, q) {
      var s := KeptMarkOrigin(sites, e);
    }
    forall e | e in Marks(sites) ensures Diverge(e.path, q) {
      var s := MarkOrigin(sites, e);
    }
    ApplyFrame(j, KeptMarks(sites), q);
    ApplyFrame(Apply(j, KeptMarks(sites)), Marks(sites), q);
  }

  /** The intended result says of each secret whether the server is to take its value, and has all else as it was. */
  lemma SecretsMarked(j: Json, lists: seq<string>, objects: seq<string>, decompiled: Decompiled)
    requires EntityNames(lists, objects) && Completes(PayloadSites(j, lists, objects, decompiled))
    ensures var marked := Marked(j, PayloadSites(j, lists, objects, decompiled));
      && (forall s | OfPayload(s, j, lists, objects, decompiled) && (WasKnown(s) ==> Truthy(OrNull(s.value))) ::
            Lookup(marked, s.path + [Key("attrs")]) == Some(Obj(map["is_secret_modified" := Bool(!WasKnown(s))])))
      && (forall q: Path ::
            (forall s | OfPayload(s, j, lists, objects, decompiled) :: Diverge(s.path + [Key("attrs")], q))
            ==> Lookup(marked, q) == Lookup(j, q))
  {
    hide PayloadSites, Marked, OfPayload, Completes, WellPlaced, WasKnown, Lookup, Diverge;
    var sites := PayloadSites(j, lists, objects, decompiled);
    PayloadWellPlaced(j, lists, objects, decompiled);
    forall s | OfPayload(s, j, lists, objects, decompiled) && (WasKnown(s) ==> Truthy(OrNull(s.value)))
      ensures Lookup(Marked(j, sites), s.path + [Key("attrs")])
           == Some(Obj(map["is_secret_modified" := Bool(!WasKnown(s))]))
    {
      PayloadSitesAre(j, lists, objects, decompiled, s);
      SiteMarked(j, sites, s);
    }
    forall q: Path | forall s | OfPayload(s, j, lists, objects, decompiled) :: Diverge(s.path + [Key("attrs")], q)
      ensures Lookup(Marked(j, sites), q) == Lookup(j, q)
    {
      forall s | s in sites ensures Diverge(s.path + [Key("attrs")], q) {
        PayloadSitesAre(j, lists, objects, decompiled, s);
      }
      MarkedElsewhere(j, sites, q);
    }
  }

  // ----- secrets that go by name

  lemma {:induction false} NetOfStrip(holders: seq<Holder>)
    ensures HolderNet(holders, map[]) == HolderStrip(holders)
  {
    if holders != [] {
      NetOfStrip(holders[..|holders|-1]);
    }
  }

  /** At each holder's place: its placeholder when it was stripped, else what was there. */
  lemma HolderRead(j: Json, decompiled: Decompiled, strips: bool, sites: seq<Site>, k: nat)
    requires NamesStrippable(j, strips) && SitesOff(sites) && k < |Holders(j, decompiled, strips)|
    ensures var holders := Holders(j, decompiled, strips);
      var h := holders[k];
      Lookup(StripPayload(j, holders, sites), h.path) == if h.stripped then Some(h.placeholder) else h.secret
  {
    hide NamesStrippable, Holders, HolderStrip, StripEdits, HolderNet, Apply, Lookup;
    var holders := Holders(j, decompiled, strips);
    CredentialsAreObjects(j, strips);
    PayloadHoldersPlaced(j, decompiled, strips);
    NetOfStrip(holders);
    NetReads(j, holders, map[], k);
    var q := holders[k].path;
    assert holders[k] in holders && HolderPlace(q);
    forall s <- sites ensures Diverge(s.path, q) {
      OffDiverges(s.path, q);
    }
    EditsMiss(sites, q);
    ApplyFrame(Apply(j, HolderStrip(holders)), StripEdits(sites), q);
  }

  lemma {:induction false} LastOfName(holders: seq<Holder>, k: nat)
    requires k < |holders| && holders[k].stripped
    requires forall i | k < i < |holders| :: holders[i].stripped ==> holders[i].name != holders[k].name
    ensures holders[k].name in SecretMap(holders) && SecretMap(holders)[holders[k].name] == Popped(holders[k].secret)
  {
    var n := |holders| - 1;
    if k < n {
      LastOfName(holders[..n], k);
    }
  }

  /** The secret of a credential is known under its name. */
  predicate CredentialKnown(c: Json, decompiled: Decompiled) {
    var known := Under(decompiled, "credential_definition_list");
    Get(c, "name").Some? && Get(c, "name").value.Str? && NameOf(c) in known
    && known[NameOf(c)] == Node(c, [Key("secret"), Key("value")])
  }

  /**
   A credential whose secret was not decompiled loses it to a placeholder, and the map has the secret of
   the last such credential of its name, if no authentication of that name comes after; others keep it.
   */
  lemma CredentialAccounted(j: Json, decompiled: Decompiled, strips: bool, sites: seq<Site>, i: nat)
    requires NamesStrippable(j, strips) && SitesOff(sites) && i < |Elements(j, "credential_definition_list")|
    ensures var credentials := Elements(j, "credential_definition_list");
      var q := [Key("credential_definition_list"), Idx(i), Key("secret")];
      var unset := Obj(map["is_secret_modified" := Bool(false), "secret_reference" := Null]);
      var holders := Holders(j, decompiled, strips);
      && Lookup(StripPayload(j, holders, sites), q)
         == (if CredentialKnown(credentials[i], decompiled) then Get(credentials[i], "secret")
             else Some(Obj(map["attrs" := unset])))
      && (!CredentialKnown(credentials[i], decompiled) && !AuthTaken(j, decompiled, strips, NameOf(credentials[i]))
          && (forall n | i < n < |credentials| ::
                !CredentialKnown(credentials[n], decompiled) ==> NameOf(credentials[n]) != NameOf(credentials[i])) ==>
            && NameOf(credentials[i]) in SecretMap(holders)
            && Some(SecretMap(holders)[NameOf(credentials[i])]) == Get(credentials[i], "secret"))
  {
    var credentials, holders := Elements(j, CREDENTIALS), Holders(j, decompiled, strips);
    HolderRead(j, decompiled, strips, sites, i);
    forall n | 0 <= n < |credentials|
      ensures holders[n].path == [Key(CREDENTIALS), Idx(n), Key("secret")] && holders[n].name == NameOf(credentials[n])
      ensures holders[n].stripped <==> !CredentialKnown(credentials[n], decompiled)
      ensures holders[n].secret == Get(credentials[n], "secret") && holders[n].placeholder == CREDENTIAL_PLACEHOLDER
    {
      OneCredential(j, decompiled, strips, n);
    }
    SecretThere(j, strips, i);
    forall n | |credentials| <= n < |holders|
      ensures holders[n].stripped ==> AuthTaken(j, decompiled, strips, holders[n].name)
    {
      OneAuthentication(j, decompiled, strips);
    }
    hide Holders, StripPayload, Lookup, NamesStrippable, CredentialKnown, AuthTaken, SecretMap, NameOf;
    if !CredentialKnown(credentials[i], decompiled) && !AuthTaken(j, decompiled, strips, NameOf(credentials[i]))
      && forall n | i < n < |credentials| ::
           !CredentialKnown(credentials[n], decompiled) ==> NameOf(credentials[n]) != NameOf(credentials[i])
    {
      LastOfName(holders, i);
    }
  }

  lemma SecretThere(j: Json, strips: bool, i: nat)
    requires NamesStrippable(j, strips) && i < |Elements(j, CREDENTIALS)|
    ensures Get(Elements(j, CREDENTIALS)[i], "secret").Some?
  {
    assert CredentialFits(Elements(j, CREDENTIALS)[i]);
  }

  lemma OneCredential(j: Json, decompiled: Decompiled, strips: bool, n: nat)
    requires n < |Elements(j, CREDENTIALS)|
    ensures var c, h := Elements(j, CREDENTIALS)[n], Holders(j, decompiled, strips)[n];
      && h.path == [Key(CREDENTIALS), Idx(n), Key("secret")] && h.name == NameOf(c) && h.secret == Get(c, "secret")
      && h.placeholder == CREDENTIAL_PLACEHOLDER && (h.stripped <==> !CredentialKnown(c, decompiled))
  {
    var c := Elements(j, CREDENTIALS)[n];
    assert Holders(j, decompiled, strips)[n] == CredentialHolder(c, n, SecretsOf(decompiled, CREDENTIALS));
    hide Lookup;
  }

  /** The endpoint authentication is taken under this name. */
  predicate AuthTaken(j: Json, decompiled: Decompiled, strips: bool, name: string) {
    var auth := OrNull(Get(j, "authentication"));
    var known := Under(decompiled, "authentication");
    var user, password := OrNull(Get(auth, "username")), OrNull(Get(auth, "password"));
    && strips && Typed(auth, "type", "basic") && name == (if user.Str? then user.s else "")
    && !(user.Str? && user.s in known && known[user.s] == password)
  }

  lemma OneAuthentication(j: Json, decompiled: Decompiled, strips: bool)
    ensures var n, holders := |Elements(j, CREDENTIALS)|, Holders(j, decompiled, strips);
      && n <= |holders| <= n + 1
      && (|holders| == n + 1 <==> OrNull(Get(j, "authentication")).Obj?)
      && (|holders| == n + 1 ==>
            && holders[n].path == [Key("authentication"), Key("password")]
            && holders[n].secret == Get(OrNull(Get(j, "authentication")), "password")
            && holders[n].placeholder == AUTH_PLACEHOLDER
            && (holders[n].stripped <==> AuthTaken(j, decompiled, strips, holders[n].name)))
  {
    hide CredentialHolders;
  }

  /** The password of an endpoint's basic authentication, taken under its username. */
  lemma AuthenticationAccounted(j: Json, decompiled: Decompiled, strips: bool, sites: seq<Site>, username: string)
    requires NamesStrippable(j, strips) && SitesOff(sites)
    requires OrNull(Get(j, "authentication")).Obj?
             && Get(OrNull(Get(j, "authentication")), "username") == Some(Str(username))
    ensures var holders, password := Holders(j, decompiled, strips), Get(OrNull(Get(j, "authentication")), "password");
      var unmodified := Obj(map["is_secret_modified" := Bool(false), "value" := Null]);
      var taken := AuthTaken(j, decompiled, strips, username);
      && Lookup(StripPayload(j, holders, sites), [Key("authentication"), Key("password")])
         == (if taken then Some(Obj(map["attrs" := unmodified])) else password)
      && (taken ==> username in SecretMap(holders) && Some(SecretMap(holders)[username]) == password)
  {
    var n, holders := |Elements(j, CREDENTIALS)|, Holders(j, decompiled, strips);
    OneAuthentication(j, decompiled, strips);
    assert holders[n].name == username by {
      AuthName(j, decompiled, strips, username);
    }
    assert AuthTaken(j, decompiled, strips, username) ==> Get(OrNull(Get(j, "authentication")), "password").Some?;
    HolderRead(j, decompiled, strips, sites, n);
    hide Holders, StripPayload, Lookup, NamesStrippable, AuthTaken, SecretMap;
    if holders[n].stripped {
      LastOfName(holders, n);
    }
  }

  lemma AuthName(j: Json, decompiled: Decompiled, strips: bool, username: string)
    requires OrNull(Get(j, "authentication")).Obj?
             && Get(OrNull(Get(j, "authentication")), "username") == Some(Str(username))
    ensures var n, holders := |Elements(j, CREDENTIALS)|, Holders(j, decompiled, strips);
      |holders| > n && holders[n].name == username
  {
    hide CredentialHolders;
  }

  // ----- every secret is a site

  /** The site of a SECRET variable or header. */
  function SecretSite(v: Json, p: Path, f: Path, known: Known): Site {
    Site(Variable, p, f, OrNull(Get(v, "name")), Get(v, "value"), known)
  }

  lemma {:induction false} ListCovers(variables: seq<Json>, p: Path, f: Path, known: Known, i: nat)
    requires i < |variables| && HasType(variables[i], "SECRET") && Completes(ListSites(variables, p, f, known))
    ensures SecretSite(variables[i], p + [Idx(i)], f + [Idx(i)], known) in ListSites(variables, p, f, known)
  {
    hide VariableSites, SecretSite, Based, AllBased;
    var n := |variables| - 1;
    var before := ListSites(variables[..n], p, f, known);
    var last := VariableSites(variables[n], p + [Idx(n)], f + [Idx(n)], known);
    CompletesBoth(before, last);
    if i < n {
      ListCovers(variables[..n], p, f, known, i);
    } else {
      OwnCovered(variables[n], p + [Idx(n)], f + [Idx(n)], known);
    }
  }

  lemma OwnCovered(variable: Json, p: Path, f: Path, known: Known)
    requires HasType(variable, "SECRET") && Completes(VariableSites(variable, p, f, known))
    ensures SecretSite(variable, p, f, known) in VariableSites(variable, p, f, known)
  {
    hide OptionSites;
    var own := OwnSites(variable, p, f, known);
    CompletesBoth(own, OptionSites(variable, p, f));
    assert own[0] in own;
  }

  /** A SECRET of a variable list, or of the headers or arguments of a task. */
  lemma EntityCovers(obj: Json, p: Path, f: Path, decompiled: Decompiled, field: string, context: string, i: nat)
    requires i < |Elements(obj, field)| && HasType(Elements(obj, field)[i], "SECRET")
    requires Completes(EntitySites(obj, p, f, decompiled, field, context))
    ensures SecretSite(Elements(obj, field)[i], p + [Key(field)] + [Idx(i)], f + [Key(field)] + [Idx(i)],
                       SecretsOf(decompiled, EntityContext(obj, field, context)))
            in EntitySites(obj, p, f, decompiled, field, context)
  {
    PassedEntityFits(obj, p, f, decompiled, field, context);
    hide ListSites, EntityContext, Completes, EntityFits;
    ListCovers(Elements(obj, field), p + [Key(field)], f + [Key(field)],
               SecretsOf(decompiled, EntityContext(obj, field, context)), i);
  }

  lemma PassedEntityFits(obj: Json, p: Path, f: Path, decompiled: Decompiled, field: string, context: string)
    ensures Completes(EntitySites(obj, p, f, decompiled, field, context)) ==> EntityFits(obj, field)
  {
    var sites := EntitySites(obj, p, f, decompiled, field, context);
    if !EntityFits(obj, field) {
      assert Fails(sites[0]) && sites[0] in sites;
    }
  }

  /** What one walked action stops at is part of the walk, which passes it. */
  lemma {:induction false} ActionListCovers(actions: seq<Json>, p: Path, decompiled: Decompiled, context: string,
                                            a: nat)
    requires a < |actions| && Completes(ActionListSites(actions, p, decompiled, context))
    ensures var here := OneActionSites(actions[a], p + [Idx(a)], decompiled, context);
      Completes(here) && forall s | s in here :: s in ActionListSites(actions, p, decompiled, context)
  {
    hide OneActionSites, Completes;
    var n := |actions| - 1;
    CompletesBoth(ActionListSites(actions[..n], p, decompiled, context),
                  OneActionSites(actions[n], p + [Idx(n)], decompiled, context));
    if a < n {
      ActionListCovers(actions[..n], p, decompiled, context, a);
    }
  }

  lemma {:induction false} ActionTasksCover(tasks: seq<Json>, p: Path, decompiled: Decompiled, context: string, t: nat)
    requires t < |tasks| && Completes(ActionTaskListSites(tasks, p, decompiled, context))
    ensures var here := ActionTaskSites(tasks[t], p + [Idx(t)], decompiled, context);
      Completes(here) && forall s | s in here :: s in ActionTaskListSites(tasks, p, decompiled, context)
  {
    hide ActionTaskSites, Completes;
    var n := |tasks| - 1;
    CompletesBoth(ActionTaskListSites(tasks[..n], p, decompiled, context),
                  ActionTaskSites(tasks[n], p + [Idx(n)], decompiled, context));
    if t < n {
      ActionTasksCover(tasks[..n], p, decompiled, context, t);
    }
  }

  /** The context of an action's runbook, and of the tasks in it. */
  function RunbookContext(context: string, action: Json): string {
    context + "." + Text(action, "name") + ".runbook"
  }

  function TasksContext(context: string, action: Json): string {
    RunbookContext(context, action) + "." + Text(RunbookOf(action), "name") + ".task_definition_list"
  }

  /** The path of the runbook of the action at index `a` of the object at `p`. */
  function ActionPath(p: Path, a: nat): Path {
    p + [Key("action_list")] + [Idx(a)] + [Key("runbook")]
  }

  /** The runbook of each walked action is passed as a whole. */
  lemma ActionCovers(obj: Json, p: Path, decompiled: Decompiled, context: string, a: nat)
    requires a < Walked(Elements(obj, "action_list")) && Completes(ActionSites(obj, p, decompiled, context))
    ensures var action := Elements(obj, "action_list")[a];
      var here := ActionRunbookSites(RunbookOf(action), ActionPath(p, a), decompiled, RunbookContext(context, action));
      Completes(here) && forall s | s in here :: s in ActionSites(obj, p, decompiled, context)
  {
    var actions, q := Elements(obj, "action_list"), p + [Key("action_list")];
    var walked := actions[..Walked(actions)];
    CompletesBoth(ActionListSites(walked, q, decompiled, context), StopSites(actions, q));
    assert obj.Obj? && Listable(Get(obj, "action_list"));
    hide ActionRunbookSites;
    ActionListCovers(walked, q, decompiled, context, a);
    if !IsText(actions[a], "name") {
      OneFails([], q + [Idx(a)]);
    }
  }

  /** Every SECRET variable of the runbook of an action that is walked. */
  lemma ActionVariableCovers(obj: Json, p: Path, decompiled: Decompiled, context: string, a: nat, i: nat)
    requires a < Walked(Elements(obj, "action_list")) && Completes(ActionSites(obj, p, decompiled, context))
    requires var rb := RunbookOf(Elements(obj, "action_list")[a]);
      i < |Elements(rb, "variable_list")| && HasType(Elements(rb, "variable_list")[i], "SECRET")
    ensures var action := Elements(obj, "action_list")[a];
      var rb := RunbookOf(action);
      var q := ActionPath(p, a) + [Key("variable_list")] + [Idx(i)];
      SecretSite(Elements(rb, "variable_list")[i], q, q,
                 SecretsOf(decompiled, EntityContext(rb, "variable_list", RunbookContext(context, action))))
      in ActionSites(obj, p, decompiled, context)
  {
    var action := Elements(obj, "action_list")[a];
    var rb, r := RunbookOf(action), ActionPath(p, a);
    hide EntitySites, ActionTasksSites, ActionSites, EntityContext, HasType, Elements, Text, RunbookContext,
         ActionPath, Completes;
    ActionCovers(obj, p, decompiled, context, a);
    CompletesBoth(EntitySites(rb, r, r, decompiled, "variable_list", RunbookContext(context, action)),
                  ActionTasksSites(rb, r, decompiled, RunbookContext(context, action)));
    EntityCovers(rb, r, r, decompiled, "variable_list", RunbookContext(context, action), i);
  }

  /** The tasks of the runbook of each walked action are passed. */
  lemma TaskCovers(obj: Json, p: Path, decompiled: Decompiled, context: string, a: nat, t: nat)
    requires a < Walked(Elements(obj, "action_list")) && Completes(ActionSites(obj, p, decompiled, context))
    requires t < |Elements(RunbookOf(Elements(obj, "action_list")[a]), TASKS.key)|
    ensures var action := Elements(obj, "action_list")[a];
      var here := ActionTaskSites(Elements(RunbookOf(action), TASKS.key)[t], ActionPath(p, a) + [TASKS] + [Idx(t)],
                                  decompiled,
                                  TasksContext(context, action));
      Completes(here) && forall s | s in here :: s in ActionSites(obj, p, decompiled, context)
  {
    var action := Elements(obj, "action_list")[a];
    var rb, r := RunbookOf(action), ActionPath(p, a);
    var here := RunbookContext(context, action);
    ActionCovers(obj, p, decompiled, context, a);
    CompletesBoth(EntitySites(rb, r, r, decompiled, "variable_list", here), ActionTasksSites(rb, r, decompiled, here));
    if !IsText(rb, "name") || !Iterable(Get(rb, TASKS.key)) {
      OneFails([], r + [TASKS]);
    }
    hide EntitySites, ActionSites, ActionTaskSites, Completes, RunbookContext, ActionPath;
    ActionTasksCover(Elements(rb, TASKS.key), r + [TASKS], decompiled, TasksContext(context, action), t);
  }

  /** Every SECRET header of an HTTP task of an action that is walked. */
  lemma HeaderCovers(obj: Json, p: Path, decompiled: Decompiled, context: string, a: nat, t: nat, i: nat)
    requires a < Walked(Elements(obj, "action_list")) && Completes(ActionSites(obj, p, decompiled, context))
    requires var tasks := Elements(RunbookOf(Elements(obj, "action_list")[a]), TASKS.key);
      t < |tasks| && HasType(tasks[t], "HTTP")
      && i < |Elements(OrNull(Get(tasks[t], "attrs")), "headers")|
      && HasType(Elements(OrNull(Get(tasks[t], "attrs")), "headers")[i], "SECRET")
    ensures var action := Elements(obj, "action_list")[a];
      var task := Elements(RunbookOf(action), TASKS.key)[t];
      var q := ActionPath(p, a) + [TASKS] + [Idx(t)] + [ATTRS] + [Key("headers")] + [Idx(i)];
      SecretSite(Elements(OrNull(Get(task, "attrs")), "headers")[i], q, q,
                 SecretsOf(decompiled, TasksContext(context, action) + "." + Text(task, "name") + ".headers"))
      in ActionSites(obj, p, decompiled, context)
  {
    var action := Elements(obj, "action_list")[a];
    var task := Elements(RunbookOf(action), TASKS.key)[t];
    hide ActionSites, TasksContext, ActionPath;
    TaskCovers(obj, p, decompiled, context, a, t);
    TaskHeaderCovers(task, ActionPath(p, a) + [TASKS] + [Idx(t)], decompiled, TasksContext(context, action), i);
  }

  lemma TaskHeaderCovers(task: Json, p: Path, decompiled: Decompiled, context: string, i: nat)
    requires HasType(task, "HTTP") && Completes(ActionTaskSites(task, p, decompiled, context))
    requires var attrs := OrNull(Get(task, "attrs"));
      i < |Elements(attrs, "headers")| && HasType(Elements(attrs, "headers")[i], "SECRET")
    ensures var q := p + [ATTRS] + [Key("headers")] + [Idx(i)];
      SecretSite(Elements(OrNull(Get(task, "attrs")), "headers")[i], q, q,
                 SecretsOf(decompiled, context + "." + Text(task, "name") + ".headers"))
      in ActionTaskSites(task, p, decompiled, context)
  {
    var attrs, at := OrNull(Get(task, "attrs")), p + [ATTRS];
    var here := context + "." + Text(task, "name");
    OneFails([], p);
    assert task.Obj? && IsText(task, "name");
    assert Truthy(OrNull(Get(attrs, "headers")));
    hide EntitySites, TaskAuthSites, Completes, HasType, Text, IsText;
    CompletesBoth(TaskAuthSites(task, p, decompiled, here), HeaderSites(attrs, at, at, decompiled, here + ".headers"));
    EntityCovers(attrs, at, at, decompiled, "headers", here + ".headers", i);
    assert EntityContext(attrs, "headers", here + ".headers") == here + ".headers";
  }

  /** The decompiled map has this very value under this name. */
  predicate Recorded(known: Known, name: Json, value: Json) {
    name.Str? && name.s in known && known[name.s] == value
  }

  /**
   Over one strip, the secret `v` at `q` is among the stripped ones exactly when its name and value
   are not recorded, else among the others, and only there does it keep its value.
   */
  ghost predicate Partitioned(j: Json, sites: seq<Site>, q: Path, v: Json, known: Known) {
    var kept := Recorded(known, OrNull(Get(v, "name")), OrNull(Get(v, "value")));
    && ((exists r <- Records(sites) :: r.path == q) <==> !kept)
    && ((exists k <- Kept(sites) :: k.path == q) <==> kept)
    && Lookup(Apply(j, StripEdits(sites)), q + [VALUE]) == if kept then Get(v, "value") else None
  }

  lemma SecretPartitioned(j: Json, sites: seq<Site>, q: Path, v: Json, known: Known)
    requires Fitted(j, sites) && Completes(sites) && SecretSite(v, q, q, known) in sites
             && Truthy(OrNull(Get(v, "value")))
    ensures Partitioned(j, sites, q, v, known)
  {
    assert Completes(sites) ==> WellPlaced(j, sites);
    var s := SecretSite(v, q, q, known);
    assert IsModified(s.known, s.name, OrNull(s.value))
        <==> !Recorded(known, OrNull(Get(v, "name")), OrNull(Get(v, "value")));
    hide IsModified, Recorded, Apply, Lookup;
    Partition(j, sites, s);
  }

  /** The partition for an entity's own SECRET variable, over the strip of the entity with all its actions. */
  lemma EntityVariablePartition(j: Json, p: Path, decompiled: Decompiled, head: string, i: nat)
    requires Completes(AllSites(Node(j, p), p, decompiled, head))
    requires i < |Elements(Node(j, p), "variable_list")|
    requires HasType(Elements(Node(j, p), "variable_list")[i], "SECRET")
    requires Truthy(OrNull(Get(Elements(Node(j, p), "variable_list")[i], "value")))
    ensures Partitioned(j, AllSites(Node(j, p), p, decompiled, head), p + [Key("variable_list")] + [Idx(i)],
                        Elements(Node(j, p), "variable_list")[i],
                        SecretsOf(decompiled, EntityContext(Node(j, p), "variable_list", head)))
  {
    hide EntitySites, EntityContext, Partitioned, Lookup, AllSites, Completes, Fitted;
    var obj := Node(j, p);
    AllSitesWellPlaced(j, p, decompiled, head);
    AllCompletes(obj, p, decompiled, head);
    PartsInAll(obj, p, decompiled, head);
    EntityCovers(obj, p, p, decompiled, "variable_list", head, i);
    SecretPartitioned(j, AllSites(obj, p, decompiled, head), p + [Key("variable_list")] + [Idx(i)],
                      Elements(obj, "variable_list")[i],
                      SecretsOf(decompiled, EntityContext(obj, "variable_list", head)));
  }

  /** What the parts of an object stop at. */
  lemma PartsInAll(obj: Json, p: Path, decompiled: Decompiled, head: string)
    ensures forall s | s in EntitySites(obj, p, p, decompiled, "variable_list", head) ::
            s in AllSites(obj, p, decompiled, head)
    ensures IsText(obj, "name") ==>
      forall s | s in ActionSites(obj, p, decompiled, ActionsContext(obj, head)) ::
          s in AllSites(obj, p, decompiled, head)
  {
    hide EntitySites, ActionSites, RunbookSites, AuthSites;
  }

  /** The context of the actions of the object at `p`. */
  function ActionsContext(obj: Json, head: string): string {
    head + "." + Text(obj, "name") + ".action_list"
  }

  /** The partition for a SECRET variable of an action's runbook. */
  lemma ActionVariablePartition(j: Json, p: Path, decompiled: Decompiled, head: string, a: nat, i: nat)
    requires Completes(AllSites(Node(j, p), p, decompiled, head))
    requires a < Walked(Elements(Node(j, p), "action_list"))
    requires var rb := RunbookOf(Elements(Node(j, p), "action_list")[a]);
      i < |Elements(rb, "variable_list")| && HasType(Elements(rb, "variable_list")[i], "SECRET")
      && Truthy(OrNull(Get(Elements(rb, "variable_list")[i], "value")))
    ensures var action := Elements(Node(j, p), "action_list")[a];
      var context := RunbookContext(ActionsContext(Node(j, p), head), action);
      Partitioned(j, AllSites(Node(j, p), p, decompiled, head),
                  ActionPath(p, a) + [Key("variable_list")] + [Idx(i)],
                  Elements(RunbookOf(action), "variable_list")[i],
                  SecretsOf(decompiled, EntityContext(RunbookOf(action), "variable_list", context)))
  {
    hide ActionSites, AllSites, Completes, Fitted, EntityContext, Partitioned, Lookup, Text, RunbookContext, Elements,
         ActionPath;
    var obj := Node(j, p);
    AllSitesWellPlaced(j, p, decompiled, head);
    AllCompletes(obj, p, decompiled, head);
    PartsInAll(obj, p, decompiled, head);
    ActionVariableCovers(obj, p, decompiled, ActionsContext(obj, head), a, i);
    var rb := RunbookOf(Elements(obj, "action_list")[a]);
    var context := RunbookContext(ActionsContext(obj, head), Elements(obj, "action_list")[a]);
    SecretPartitioned(j, AllSites(obj, p, decompiled, head), ActionPath(p, a) + [Key("variable_list")] + [Idx(i)],
                      Elements(rb, "variable_list")[i],
                      SecretsOf(decompiled, EntityContext(rb, "variable_list", context)));
  }

  /** The partition for a SECRET header of an action's HTTP task. */
  lemma HeaderPartition(j: Json, p: Path, decompiled: Decompiled, head: string, a: nat, t: nat, i: nat)
    requires Completes(AllSites(Node(j, p), p, decompiled, head))
    requires a < Walked(Elements(Node(j, p), "action_list"))
    requires var tasks := Elements(RunbookOf(Elements(Node(j, p), "action_list")[a]), TASKS.key);
      t < |tasks| && HasType(tasks[t], "HTTP")
      && i < |Elements(OrNull(Get(tasks[t], "attrs")), "headers")|
      && HasType(Elements(OrNull(Get(tasks[t], "attrs")), "headers")[i], "SECRET")
      && Truthy(OrNull(Get(Elements(OrNull(Get(tasks[t], "attrs")), "headers")[i], "value")))
    ensures var action := Elements(Node(j, p), "action_list")[a];
      var task := Elements(RunbookOf(action), TASKS.key)[t];
      var context := TasksContext(ActionsContext(Node(j, p), head), action) + "." + Text(task, "name") + ".headers";
      Partitioned(j, AllSites(Node(j, p), p, decompiled, head),
                  ActionPath(p, a) + [TASKS] + [Idx(t)] + [ATTRS] + [Key("headers")] + [Idx(i)],
                  Elements(OrNull(Get(task, "attrs")), "headers")[i], SecretsOf(decompiled, context))
  {
    hide ActionSites, AllSites, Completes, Fitted, Partitioned, Lookup, Text, TasksContext, Elements, ActionPath;
    var obj := Node(j, p);
    AllSitesWellPlaced(j, p, decompiled, head);
    AllCompletes(obj, p, decompiled, head);
    PartsInAll(obj, p, decompiled, head);
    HeaderCovers(obj, p, decompiled, ActionsContext(obj, head), a, t, i);
    var action := Elements(obj, "action_list")[a];
    var task := Elements(RunbookOf(action), TASKS.key)[t];
    var context := TasksContext(ActionsContext(obj, head), action) + "." + Text(task, "name") + ".headers";
    SecretPartitioned(j, AllSites(obj, p, decompiled, head), ActionPath(p, a) + [TASKS] + [Idx(t)] + [ATTRS]
                      + [Key("headers")] + [Idx(i)],
                      Elements(OrNull(Get(task, "attrs")), "headers")[i], SecretsOf(decompiled, context));
  }

  /**
   The walk returns at the first action without a runbook: that action and all later ones go to the
   server with their secrets, and come back as they were.
   */
  lemma LaterActionsNotStripped(j: Json, p: Path, decompiled: Decompiled, head: string, a: nat)
    requires Completes(AllSites(Node(j, p), p, decompiled, head))
    requires Walked(Elements(Node(j, p), "action_list")) <= a
    ensures var q := p + [Key("action_list")] + [Idx(a)];
      var sites := AllSites(Node(j, p), p, decompiled, head);
      && Lookup(Apply(j, StripEdits(sites)), q) == Lookup(j, q)
      && Lookup(StripThenPatch(j, sites), q) == Lookup(j, q)
  {
    var obj := Node(j, p);
    var q := p + [Key("action_list")] + [Idx(a)];
    var sites := AllSites(obj, p, decompiled, head);
    hide Apply, Lookup, StripEdits, StripThenPatch;
    forall s | s in sites ensures Diverge(s.path, q) && Diverge(s.filed, q) {
      SiteMissesAction(obj, p, decompiled, head, a, s);
    }
    Untouched(j, sites, q);
  }

  lemma ActionRow(obj: Json, p: Path, decompiled: Decompiled, context: string, s: Site)
    requires s in ActionSites(obj, p, decompiled, context) && s.kind != Missing
    ensures s.filed == s.path && p + [Key("action_list")] < s.path
    ensures s.path[|p|+1].Idx? && s.path[|p|+1].idx < Walked(Elements(obj, "action_list"))
  {
    assert p + s.path[|p|..] == s.path;
  }

  lemma SiteMissesAction(obj: Json, p: Path, decompiled: Decompiled, head: string, a: nat, s: Site)
    requires Completes(AllSites(obj, p, decompiled, head)) && s in AllSites(obj, p, decompiled, head)
    requires Walked(Elements(obj, "action_list")) <= a
    ensures Diverge(s.path, p + [Key("action_list")] + [Idx(a)])
            && Diverge(s.filed, p + [Key("action_list")] + [Idx(a)])
  {
    hide ActionSites, AllSites, Diverge, Elements, ActionsContext;
    assert !Fails(s);
    var k := Key("action_list");
    var q := p + [k] + [Idx(a)];
    if s in ActionSites(obj, p, decompiled, ActionsContext(obj, head)) {
      ActionRow(obj, p, decompiled, ActionsContext(obj, head), s);
      assert q[|p|+1] == Idx(a);
      HeadsDiverge(p + [k], s.path, q);
    } else {
      OtherHeads(obj, p, decompiled, head, s);
      assert q[|p|] == k && p < q;
      HeadsDiverge(p, s.path, q);
      HeadsDiverge(p, s.filed, q);
    }
  }

  lemma OtherHeads(obj: Json, p: Path, decompiled: Decompiled, head: string, s: Site)
    requires s in AllSites(obj, p, decompiled, head) && s.kind != Missing
    requires s !in ActionSites(obj, p, decompiled, ActionsContext(obj, head))
    ensures p < s.path && p < s.filed && s.path[|p|] != Key("action_list") && s.filed[|p|] != Key("action_list")
  {
    AllSitesPlaced(obj, p, decompiled, head);
    AuthPlaced(obj, p, decompiled, head);
    assert InObject(s, p) && FiledInObject(s, p);
    hide EntitySites, ActionSites, RunbookSites, AuthSites;
    if s.filed != s.path {
      if p + [Key("runbook")] <= s.filed {
        assert s.filed[|p|] == Key("runbook");
      } else {
        assert s.filed[|p|] == Key("authentication");
      }
    }
  }
}
