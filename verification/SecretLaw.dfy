/** The strip / patch law for whole payloads: blueprints, runbooks, endpoints and providers. */
module SecretLaw {
  import opened Options
  import opened JsonTree
  import opened SecretSites
  import opened SecretWalk
  import opened SecretRoundTrip
  import opened SecretPlaces
  import opened SecretPayload

  /** `strip_secrets` or `strip_provider_secrets`, on the tree. */
  function StripPayload(j: Json, holders: seq<Holder>, sites: seq<Site>): Json {
    Apply(Apply(j, HolderStrip(holders)), StripEdits(sites))
  }

  /** `patch_secrets`: credentials and authentication by name, then kept secrets, then stripped ones. */
  function PatchPayload(j: Json, secrets: map<string, Json>, records: seq<SecretRecord>, kept: seq<KeptRecord>): Json {
    PatchAll(PatchKept(Apply(j, HolderPatch(Holders(j, map[], false), secrets)), kept), records)
  }

  /** Strip, a server that echoes what it was sent, patch. */
  function RoundTrip(j: Json, holders: seq<Holder>, sites: seq<Site>): Json {
    PatchPayload(StripPayload(j, holders, sites), SecretMap(holders), Records(sites), Kept(sites))
  }

  /** `patch_secrets` ends without an error: all names can be read, and all paths walked. */
  predicate PatchRuns(j: Json, secrets: map<string, Json>, records: seq<SecretRecord>, kept: seq<KeptRecord>) {
    var k := Apply(j, HolderPatch(Holders(j, map[], false), secrets));
    NamesPatchable(j) && KeptWalk(k, kept) && RecordsWalk(PatchKept(k, kept), records)
  }

  /** A path that meets no credential's name or secret, and no endpoint authentication. */
  predicate Off(q: Path) {
    && q != []
    && q[0] != Key("authentication")
    && (q[0] == Key(CREDENTIALS) ==> |q| >= 3 && q[1].Idx? && q[2] != Key("secret") && q[2] != Key("name"))
  }

  /** Paths that holders are read and written at. */
  predicate HolderPlace(q: Path) {
    || (|q| == 3 && q[0] == Key(CREDENTIALS) && q[1].Idx? && q[2] in {Key("secret"), Key("name")})
    || (|q| == 2 && q[0] == Key("authentication"))
  }

  lemma OffDiverges(p: Path, q: Path)
    requires Off(p) && HolderPlace(q)
    ensures Diverge(p, q) && Diverge(q, p)
  {
    if p[0] == q[0] {
      assert p[1..][0] == p[1] && q[1..][0] == q[1];
      assert p[1..][1..][0] == p[2] && q[1..][1..][0] == q[2];
      assert Diverge(p[1..][1..], q[1..][1..]);
      assert Diverge(p[1..], q[1..]);
    }
    DivergeSymmetric(p, q);
  }

  /** Every holder is where holders are. */
  lemma HoldersHavePlaces(j: Json, decompiled: Decompiled, strips: bool)
    ensures forall h | h in Holders(j, decompiled, strips) :: HolderPlace(h.path)
  {
    hide IsModified;
    var credentials := CredentialHolders(Elements(j, CREDENTIALS), SecretsOf(decompiled, CREDENTIALS));
    forall h | h in credentials ensures HolderPlace(h.path) {
      var i :| 0 <= i < |credentials| && credentials[i] == h;
    }
  }

  ghost predicate SitesOff(sites: seq<Site>) {
    forall s <- sites :: Off(s.path) && Off(s.filed)
  }

  // ----- sites do not reach what diverges from them

  lemma EditsMiss(sites: seq<Site>, q: Path)
    requires forall s <- sites :: Diverge(s.path, q)
    ensures Avoid(StripEdits(sites), q) && Avoid(Marks(sites), q) && Avoid(KeptMarks(sites), q)
  {
    forall e <- KeptMarks(sites) ensures Diverge(e.path, q) {
      var s := KeptMarkOrigin(sites, e);
      DivergeExtend(s.path, q, [ATTRS], []);
      assert q + [] == q;
    }
    forall e <- StripEdits(sites) ensures Diverge(e.path, q) {
      var s := EditsOfSites(sites, e);
      var x := OfSiteSuffix(e, s);
      DivergeExtend(s.path, q, x, []);
      assert q + [] == q;
    }
    forall e <- Marks(sites) ensures Diverge(e.path, q) {
      var s := EditsOfSites(sites, e);
      var x := OfSiteSuffix(e, s);
      DivergeExtend(s.path, q, x, []);
      assert q + [] == q;
    }
  }

  lemma PatchesMiss(j: Json, sites: seq<Site>, q: Path)
    requires forall s <- sites :: Diverge(s.filed, q)
    ensures Lookup(PatchAll(j, Records(sites)), q) == Lookup(j, q)
    ensures Lookup(PatchKept(j, Kept(sites)), q) == Lookup(j, q)
  {
    assert q + [] == q;
    forall r <- Records(sites) ensures Diverge(r.path + [ATTRS], q) && Diverge(r.path + [VALUE], q) {
      var s := RecordOrigin(sites, r);
      DivergeExtend(s.filed, q, [ATTRS], []);
      DivergeExtend(s.filed, q, [VALUE], []);
    }
    PatchAllFrame(j, Records(sites), q);
    forall k <- Kept(sites) ensures Diverge(k.path + [ATTRS], q) {
      var s := KeptOrigin(sites, k);
      DivergeExtend(s.filed, q, [ATTRS], []);
    }
    PatchKeptFrame(j, Kept(sites), q);
  }

  /** Whatever no site is at or filed at is the same before and after, and in the intended result. */
  lemma Untouched(j: Json, sites: seq<Site>, q: Path)
    requires forall s <- sites :: Diverge(s.path, q) && Diverge(s.filed, q)
    ensures Lookup(Apply(j, StripEdits(sites)), q) == Lookup(j, q)
    ensures Lookup(StripThenPatch(j, sites), q) == Lookup(j, q)
    ensures Lookup(Marked(j, sites), q) == Lookup(j, q)
  {
    EditsMiss(sites, q);
    ApplyFrame(j, StripEdits(sites), q);
    PatchesMiss(Apply(j, StripEdits(sites)), sites, q);
    PatchesMiss(PatchKept(Apply(j, StripEdits(sites)), Kept(sites)), sites, q);
    ApplyFrame(j, KeptMarks(sites), q);
    ApplyFrame(Apply(j, KeptMarks(sites)), Marks(sites), q);
  }

  // ----- the patch finds the same holders in the stripped tree

  /** An edit that changes neither the number of elements of list `k` nor the kind of member `k`. */
  predicate Deep(e: Edit, k: string) {
    e.path != [] && (e.path[0] != Key(k) || (|e.path| >= 2 && e.path[1].Idx?))
  }

  lemma {:induction false} ListKept(j: Json, edits: seq<Edit>, k: string)
    requires forall e <- edits :: Deep(e, k)
    ensures |Elements(Apply(j, edits), k)| == |Elements(j, k)|
    decreases |edits|
  {
    if edits != [] {
      var e := edits[0];
      assert e in edits;
      assert |Elements(Write(j, e.path, e.value), k)| == |Elements(j, k)| by {
        if |e.path| > 1 && e.path[0] == Key(k) && Child(j, e.path[0]).Some? {
          ArrayKept(Child(j, e.path[0]).value, e.path[1..], e.value);
        }
      }
      ListKept(Write(j, e.path, e.value), edits[1..], k);
    }
  }

  lemma ArrayKept(j: Json, p: Path, v: Option<Json>)
    requires p != [] && p[0].Idx?
    ensures j.Arr? ==> Write(j, p, v).Arr? && |Write(j, p, v).items| == |j.items|
    ensures !j.Arr? ==> Write(j, p, v) == j
  {
  }

  lemma {:induction false} ObjectKept(j: Json, edits: seq<Edit>, k: string)
    requires forall e <- edits :: e.path != [] && (e.path[0] != Key(k) || (|e.path| >= 2 && e.path[1].Key?))
    ensures OrNull(Get(Apply(j, edits), k)).Obj? == OrNull(Get(j, k)).Obj?
    decreases |edits|
  {
    if edits != [] {
      var e := edits[0];
      assert e in edits;
      assert OrNull(Get(Write(j, e.path, e.value), k)).Obj? == OrNull(Get(j, k)).Obj? by {
        if |e.path| > 1 && e.path[0] == Key(k) && Child(j, e.path[0]).Some? {
          assert Write(Child(j, e.path[0]).value, e.path[1..], e.value).Obj? == Child(j, e.path[0]).value.Obj?;
        }
      }
      ObjectKept(Write(j, e.path, e.value), edits[1..], k);
    }
  }

  ghost predicate SameTargets(a: seq<Holder>, b: seq<Holder>) {
    && |a| == |b|
    && forall i | 0 <= i < |a| :: a[i].path == b[i].path && a[i].name == b[i].name && a[i].receives == b[i].receives
  }

  lemma {:induction false} SamePatch(a: seq<Holder>, b: seq<Holder>, secrets: map<string, Json>)
    requires SameTargets(a, b)
    ensures HolderPatch(a, secrets) == HolderPatch(b, secrets)
  {
    if a != [] {
      SamePatch(a[..|a|-1], b[..|b|-1], secrets);
    }
  }

  /** Nothing the strip writes is a name, a username, or the shape of the lists holders are found in. */
  predicate Harmless(e: Edit) {
    || Off(e.path)
    || (|e.path| == 3 && e.path[0] == Key(CREDENTIALS) && e.path[1].Idx? && e.path[2] == Key("secret"))
    || e.path == AUTH_PASSWORD
  }

  lemma TargetsKept(j: Json, edits: seq<Edit>, decompiled: Decompiled, strips: bool)
    requires forall e <- edits :: Harmless(e)
    ensures SameTargets(Holders(Apply(j, edits), map[], false), Holders(j, decompiled, strips))
  {
    hide Apply, Lookup, IsModified, Harmless, Elements, CredentialHolders, AuthHolders;
    CredentialTargets(j, edits, SecretsOf(map[], CREDENTIALS), SecretsOf(decompiled, CREDENTIALS));
    HarmlessMembers(edits);
    ObjectKept(j, edits, "authentication");
    UsernameKept(j, edits);
    MemberOf(Apply(j, edits), "authentication", "username");
    MemberOf(j, "authentication", "username");
    AuthTargets(Apply(j, edits), SecretsOf(map[], "authentication"), j, SecretsOf(decompiled, "authentication"),
                strips);
    JoinTargets(CredentialHolders(Elements(Apply(j, edits), CREDENTIALS), SecretsOf(map[], CREDENTIALS)),
                AuthHolders(Apply(j, edits), SecretsOf(map[], "authentication"), false),
                CredentialHolders(Elements(j, CREDENTIALS), SecretsOf(decompiled, CREDENTIALS)),
                AuthHolders(j, SecretsOf(decompiled, "authentication"), strips));
  }

  lemma JoinTargets(a: seq<Holder>, x: seq<Holder>, b: seq<Holder>, y: seq<Holder>)
    requires SameTargets(a, b) && SameTargets(x, y)
    ensures SameTargets(a + x, b + y)
  {
  }

  lemma AuthTargets(a: Json, aKnown: Known, b: Json, bKnown: Known, strips: bool)
    requires OrNull(Get(a, "authentication")).Obj? == OrNull(Get(b, "authentication")).Obj?
    requires Text(OrNull(Get(a, "authentication")), "username") == Text(OrNull(Get(b, "authentication")), "username")
    ensures SameTargets(AuthHolders(a, aKnown, false), AuthHolders(b, bKnown, strips))
  {
    hide IsModified, Text, Get;
  }

  lemma HarmlessMembers(edits: seq<Edit>)
    requires forall e <- edits :: Harmless(e)
    ensures forall e <- edits ::
                e.path != [] && (e.path[0] != Key("authentication") || (|e.path| >= 2 && e.path[1].Key?))
  {
  }

  lemma CredentialTargets(j: Json, edits: seq<Edit>, before: Known, after: Known)
    requires forall e <- edits :: Harmless(e)
    ensures SameTargets(CredentialHolders(Elements(Apply(j, edits), CREDENTIALS), before),
                        CredentialHolders(Elements(j, CREDENTIALS), after))
  {
    hide Apply, Lookup, IsModified, Harmless, Elements, Text, Get, Node;
    HarmlessDeep(edits);
    ListKept(j, edits, CREDENTIALS);
    var a, b := Elements(Apply(j, edits), CREDENTIALS), Elements(j, CREDENTIALS);
    forall i | 0 <= i < |a| ensures Text(a[i], "name") == Text(b[i], "name") {
      CredentialNameKept(j, edits, i);
    }
    NamesMakeTargets(a, b, before, after);
  }

  lemma CredentialNameKept(j: Json, edits: seq<Edit>, i: nat)
    requires forall e <- edits :: Harmless(e)
    requires i < |Elements(j, CREDENTIALS)| && i < |Elements(Apply(j, edits), CREDENTIALS)|
    ensures Text(Elements(Apply(j, edits), CREDENTIALS)[i], "name") == Text(Elements(j, CREDENTIALS)[i], "name")
  {
    hide Apply, Harmless, Elements;
    NameKept(j, edits, i);
    ElementMember(Apply(j, edits), i, "name");
    ElementMember(j, i, "name");
  }

  lemma NamesMakeTargets(a: seq<Json>, b: seq<Json>, before: Known, after: Known)
    requires |a| == |b| && forall i | 0 <= i < |a| :: Text(a[i], "name") == Text(b[i], "name")
    ensures SameTargets(CredentialHolders(a, before), CredentialHolders(b, after))
  {
    hide IsModified, Text, Get, Node;
  }

  lemma HarmlessDeep(edits: seq<Edit>)
    requires forall e <- edits :: Harmless(e)
    ensures forall e <- edits :: Deep(e, CREDENTIALS)
  {
  }

  lemma NameKept(j: Json, edits: seq<Edit>, i: nat)
    requires forall e <- edits :: Harmless(e)
    ensures Lookup(Apply(j, edits), [Key(CREDENTIALS), Idx(i), Key("name")])
            == Lookup(j, [Key(CREDENTIALS), Idx(i), Key("name")])
  {
    var q := [Key(CREDENTIALS), Idx(i), Key("name")];
    forall e <- edits ensures Diverge(e.path, q) {
      if Off(e.path) {
        OffDiverges(e.path, q);
      } else if e.path != AUTH_PASSWORD {
        assert Diverge(e.path[1..][1..], q[1..][1..]);
        assert Diverge(e.path[1..], q[1..]);
      }
    }
    ApplyFrame(j, edits, q);
  }

  lemma UsernameKept(j: Json, edits: seq<Edit>)
    requires forall e <- edits :: Harmless(e)
    ensures Lookup(Apply(j, edits), [Key("authentication"), Key("username")])
            == Lookup(j, [Key("authentication"), Key("username")])
  {
    var q := [Key("authentication"), Key("username")];
    forall e <- edits ensures Diverge(e.path, q) {
      if Off(e.path) {
        OffDiverges(e.path, q);
      } else if e.path == AUTH_PASSWORD {
        assert Diverge(e.path[1..], q[1..]);
      }
    }
    ApplyFrame(j, edits, q);
  }

  lemma ElementMember(j: Json, i: nat, k: string)
    requires i < |Elements(j, CREDENTIALS)|
    ensures Lookup(j, [Key(CREDENTIALS), Idx(i), Key(k)]) == Get(Elements(j, CREDENTIALS)[i], k)
    ensures Lookup(j, [Key(CREDENTIALS), Idx(i)]) == Some(Elements(j, CREDENTIALS)[i])
  {
    LookupSplit(j, [Key(CREDENTIALS), Idx(i)], [Key(k)]);
    LookupSplit(j, [Key(CREDENTIALS)], [Idx(i)]);
    assert Lookup(Elements(j, CREDENTIALS)[i], [Key(k)]) == Get(Elements(j, CREDENTIALS)[i], k);
    assert [Key(CREDENTIALS), Idx(i)] + [Key(k)] == [Key(CREDENTIALS), Idx(i), Key(k)];
    assert [Key(CREDENTIALS)] + [Idx(i)] == [Key(CREDENTIALS), Idx(i)];
    assert Lookup(j, [Key(CREDENTIALS)]) == Get(j, CREDENTIALS);
    assert Lookup(Get(j, CREDENTIALS).value, [Idx(i)]) == Child(Get(j, CREDENTIALS).value, Idx(i));
  }

  lemma MemberOf(j: Json, o: string, k: string)
    ensures Lookup(j, [Key(o), Key(k)]) == Get(OrNull(Get(j, o)), k)
  {
    LookupSplit(j, [Key(o)], [Key(k)]);
    assert [Key(o)] + [Key(k)] == [Key(o), Key(k)];
    assert Lookup(j, [Key(o)]) == Get(j, o);
    assert Lookup(OrNull(Get(j, o)), [Key(k)]) == Get(OrNull(Get(j, o)), k);
  }

  lemma StripIsHarmless(j: Json, decompiled: Decompiled, strips: bool, sites: seq<Site>)
    requires SitesOff(sites)
    ensures forall e <- HolderStrip(Holders(j, decompiled, strips)) + StripEdits(sites) :: Harmless(e)
  {
    var holders := Holders(j, decompiled, strips);
    forall e <- HolderStrip(holders) + StripEdits(sites) ensures Harmless(e) {
      if e in HolderStrip(holders) {
        HolderEdits(holders, map[]);
        assert e in HolderStrip(holders) + HolderPatch(holders, map[]);
      } else {
        var s := EditsOfSites(sites, e);
        var x := OfSiteSuffix(e, s);
      }
    }
  }

  // ----- the patch can read the stripped tree when it could read the original

  lemma {:induction false} ListKindKept(j: Json, edits: seq<Edit>, k: string)
    requires forall e <- edits :: Deep(e, k)
    ensures Iterable(Get(Apply(j, edits), k)) == Iterable(Get(j, k))
            && Listable(Get(Apply(j, edits), k)) == Listable(Get(j, k))
    ensures Apply(j, edits).Obj? == j.Obj?
    decreases |edits|
  {
    if edits != [] {
      var e := edits[0];
      assert e in edits;
      var j' := Write(j, e.path, e.value);
      assert Iterable(Get(j', k)) == Iterable(Get(j, k)) && Listable(Get(j', k)) == Listable(Get(j, k)) by {
        if |e.path| > 1 && e.path[0] == Key(k) && Child(j, e.path[0]).Some? {
          ArrayKept(Child(j, e.path[0]).value, e.path[1..], e.value);
        }
      }
      ListKindKept(j', edits[1..], k);
    }
  }

  lemma {:induction false} MemberKindKept(j: Json, edits: seq<Edit>, k: string)
    requires forall e <- edits :: e.path != [] && (e.path[0] != Key(k) || (|e.path| >= 2 && e.path[1].Key?))
    ensures ObjOrAbsent(Get(Apply(j, edits), k)) == ObjOrAbsent(Get(j, k))
    decreases |edits|
  {
    if edits != [] {
      var e := edits[0];
      assert e in edits;
      var j' := Write(j, e.path, e.value);
      assert ObjOrAbsent(Get(j', k)) == ObjOrAbsent(Get(j, k)) by {
        if |e.path| > 1 && e.path[0] == Key(k) && Child(j, e.path[0]).Some? {
          assert Write(Child(j, e.path[0]).value, e.path[1..], e.value).Obj? == Child(j, e.path[0]).value.Obj?;
        }
      }
      MemberKindKept(j', edits[1..], k);
    }
  }

  lemma PatchableKept(j: Json, edits: seq<Edit>)
    requires forall e <- edits :: Harmless(e)
    ensures NamesPatchable(Apply(j, edits)) == NamesPatchable(j)
  {
    hide Apply, Lookup, Harmless, Elements, Iterable, ObjOrAbsent, Hashable, Truthy;
    var t := Apply(j, edits);
    HarmlessDeep(edits);
    HarmlessMembers(edits);
    ListKept(j, edits, CREDENTIALS);
    ListKindKept(j, edits, CREDENTIALS);
    MemberKindKept(j, edits, "authentication");
    UsernameKept(j, edits);
    MemberOf(t, "authentication", "username");
    MemberOf(j, "authentication", "username");
    var a, b := Elements(t, CREDENTIALS), Elements(j, CREDENTIALS);
    forall i | 0 <= i < |a| ensures Get(a[i], "name") == Get(b[i], "name") {
      NameKept(j, edits, i);
      ElementMember(t, i, "name");
      ElementMember(j, i, "name");
    }
    SameNames(a, b);
  }

  lemma SameNames(a: seq<Json>, b: seq<Json>)
    requires |a| == |b| && forall i | 0 <= i < |a| :: Get(a[i], "name") == Get(b[i], "name")
    ensures (forall c | c in a :: NameFits(c)) <==> (forall c | c in b :: NameFits(c))
  {
    forall c | c in a ensures exists i :: 0 <= i < |b| && Get(c, "name") == Get(b[i], "name") && b[i] in b {
      var i :| 0 <= i < |a| && a[i] == c;
      assert b[i] in b;
    }
    forall c | c in b ensures exists i :: 0 <= i < |a| && Get(c, "name") == Get(a[i], "name") && a[i] in a {
      var i :| 0 <= i < |b| && b[i] == c;
      assert a[i] in a;
    }
  }

  // ----- holders of a payload

  /** A holder's secret is a member of an object of the tree. */
  predicate HolderAt(j: Json, h: Holder) {
    && HolderPlace(h.path) && h.path != [] && h.path[|h.path|-1].Key?
    && h.secret == Lookup(j, h.path)
    && Lookup(j, h.path[..|h.path|-1]).Some? && Lookup(j, h.path[..|h.path|-1]).value.Obj?
  }

  lemma CredentialAt(j: Json, i: nat, known: Known)
    requires i < |Elements(j, CREDENTIALS)| && Elements(j, CREDENTIALS)[i].Obj?
    ensures HolderAt(j, CredentialHolder(Elements(j, CREDENTIALS)[i], i, known))
  {
    ElementMember(j, i, "secret");
    assert [Key(CREDENTIALS), Idx(i), Key("secret")][..2] == [Key(CREDENTIALS), Idx(i)];
  }

  lemma AuthAt(j: Json, known: Known, strips: bool)
    ensures forall h <- AuthHolders(j, known, strips) :: HolderAt(j, h)
  {
    MemberOf(j, "authentication", "password");
    assert AUTH_PASSWORD[..1] == [Key("authentication")];
    OneStep(j, Key("authentication"));
  }

  lemma CredentialsDiverge(i: nat, k: nat)
    requires i != k
    ensures Diverge([Key(CREDENTIALS), Idx(i), Key("secret")], [Key(CREDENTIALS), Idx(k), Key("secret")])
  {
    assert Diverge([Key(CREDENTIALS), Idx(i), Key("secret")][1..], [Key(CREDENTIALS), Idx(k), Key("secret")][1..]);
  }

  lemma EachHolderAt(j: Json, decompiled: Decompiled, strips: bool)
    requires forall c <- Elements(j, CREDENTIALS) :: c.Obj?
    ensures forall h <- Holders(j, decompiled, strips) :: HolderAt(j, h)
  {
    var credentials := Elements(j, CREDENTIALS);
    var known := SecretsOf(decompiled, CREDENTIALS);
    AuthAt(j, SecretsOf(decompiled, "authentication"), strips);
    forall h <- CredentialHolders(credentials, known) ensures HolderAt(j, h) {
      var i :| 0 <= i < |credentials| && h == CredentialHolder(credentials[i], i, known);
      assert credentials[i] in credentials;
      CredentialAt(j, i, known);
    }
  }

  lemma HoldersDiverge(j: Json, decompiled: Decompiled, strips: bool, i: nat, k: nat)
    requires i < |Holders(j, decompiled, strips)| && k < |Holders(j, decompiled, strips)| && i != k
    ensures Diverge(Holders(j, decompiled, strips)[i].path, Holders(j, decompiled, strips)[k].path)
  {
    var n := |Elements(j, CREDENTIALS)|;
    if i < n && k < n {
      CredentialsDiverge(i, k);
    }
  }

  lemma PayloadHoldersPlaced(j: Json, decompiled: Decompiled, strips: bool)
    requires forall c <- Elements(j, CREDENTIALS) :: c.Obj?
    ensures HoldersPlaced(j, Holders(j, decompiled, strips))
    ensures CredentialsFirst(Holders(j, decompiled, strips))
    ensures forall h <- Holders(j, decompiled, strips) :: HolderPlace(h.path)
  {
    var holders := Holders(j, decompiled, strips);
    EachHolderAt(j, decompiled, strips);
    forall i, k | 0 <= i < |holders| && 0 <= k < |holders| && i != k ensures Diverge(holders[i].path, holders[k].path) {
      HoldersDiverge(j, decompiled, strips, i, k);
    }
  }

  /** Holders that came back make no change at all. */
  lemma {:induction false} NetIdentity(j: Json, holders: seq<Holder>, secrets: map<string, Json>)
    requires HoldersPlaced(j, holders)
    requires forall h <- holders :: Returned(h, secrets) == h.secret
    ensures Apply(j, HolderNet(holders, secrets)) == j
  {
    if holders != [] {
      var n := |holders| - 1;
      var h := holders[n];
      NetIdentity(j, holders[..n], secrets);
      ApplySplit(j, HolderNet(holders[..n], secrets), OneNet(h, secrets));
      assert h in holders;
      OneNetIdentity(j, h, secrets);
    }
  }

  lemma {:induction false} OneNetIdentity(j: Json, h: Holder, secrets: map<string, Json>)
    requires h.secret == Lookup(j, h.path) && Returned(h, secrets) == h.secret
    ensures Apply(j, OneNet(h, secrets)) == j
  {
    var net := OneNet(h, secrets);
    if h.receives && h.name in secrets {
      WriteSame(j, h.path);
      if h.stripped {
        ApplyTwo(j, net);
        if h.path != [] {
          WriteTwice(j, h.path, Some(h.placeholder), secrets[h.name]);
        }
      } else {
        assert net[1..] == [];
      }
    } else if h.stripped {
      WriteSame(j, h.path);
      assert net[1..] == [];
    }
  }

  // ----- the law

  /** The holders' strip and patch can be done before any site is touched. */
  lemma HoldersFirst(j: Json, decompiled: Decompiled, strips: bool, sites: seq<Site>)
    requires SitesOff(sites)
    requires forall c <- Elements(j, CREDENTIALS) :: c.Obj?
    ensures var holders := Holders(j, decompiled, strips);
      RoundTrip(j, holders, sites) == StripThenPatch(Apply(j, HolderNet(holders, SecretMap(holders))), sites)
  {
    hide Holders, HolderNet, SecretMap, Stripped, IsModified;
    var holders := Holders(j, decompiled, strips);
    var m := SecretMap(holders);
    var A, S, P := HolderStrip(holders), StripEdits(sites), HolderPatch(holders, m);
    PayloadHoldersPlaced(j, decompiled, strips);
    StripIsHarmless(j, decompiled, strips, sites);
    ApplySplit(j, A, S);
    TargetsKept(j, A + S, decompiled, strips);
    SamePatch(Holders(Apply(j, A + S), map[], false), holders, m);
    forall e <- P ensures Avoid(S, e.path) {
      HolderEdits(holders, m);
      assert e in A + P;
      forall s <- sites ensures Diverge(s.path, e.path) {
        OffDiverges(s.path, e.path);
      }
      EditsMiss(sites, e.path);
    }
    ApplyCommute(Apply(j, A), S, P);
    HolderRegroup(j, holders, m);
  }

  lemma HoldersLeaveSites(j: Json, holders: seq<Holder>, m: map<string, Json>, sites: seq<Site>)
    requires Arranged(j, sites) && SitesOff(sites)
    requires forall h <- holders :: HolderPlace(h.path)
    ensures var k := Apply(j, HolderNet(holders, m));
      Arranged(k, sites) && forall s <- sites :: Fitting(k, s) == Fitting(j, s)
  {
    var net := HolderNet(holders, m);
    forall s <- sites ensures Fitting(Apply(j, net), s) == Fitting(j, s) && Located(Apply(j, net), s) {
      HoldersLeave(j, holders, m, s.path);
      HoldersLeave(j, holders, m, s.filed);
      FittingSame(j, Apply(j, net), s);
    }
  }

  lemma HoldersLeave(j: Json, holders: seq<Holder>, m: map<string, Json>, q: Path)
    requires Off(q) && forall h <- holders :: HolderPlace(h.path)
    ensures Lookup(Apply(j, HolderNet(holders, m)), q) == Lookup(j, q)
  {
    forall h <- holders ensures Diverge(h.path, q) {
      OffDiverges(q, h.path);
    }
    NetMiss(holders, m, q);
    ApplyFrame(j, HolderNet(holders, m), q);
  }

  /** Holders and sites do not meet, so each decides for itself whether it comes back, from whatever map. */
  lemma EachDecides(u: Json, holders: seq<Holder>, m: map<string, Json>, sites: seq<Site>)
    requires Arranged(u, sites) && SitesOff(sites)
    requires HoldersPlaced(u, holders) && forall h <- holders :: HolderPlace(h.path)
    ensures StripThenPatch(Apply(u, HolderNet(holders, m)), sites) == Marked(u, sites)
      <==> Answered(holders, m) && forall s <- sites :: Fitting(u, s)
  {
    var k := Apply(u, HolderNet(holders, m));
    HoldersLeaveSites(u, holders, m, sites);
    AnsweredIsReturned(holders, m);
    if Answered(holders, m) {
      NetIdentity(u, holders, m);
      RoundTripExactly(u, sites);
    } else {
      var i :| 0 <= i < |holders| && Returned(holders[i], m) != holders[i].secret;
      NetReads(u, holders, m, i);
      var q := holders[i].path;
      assert holders[i] in holders;
      forall s <- sites ensures Diverge(s.path, q) && Diverge(s.filed, q) {
        OffDiverges(s.path, q);
        OffDiverges(s.filed, q);
      }
      Untouched(k, sites, q);
      Untouched(u, sites, q);
    }
  }

  /**
   The law for a whole payload. Strip, echo and patch give back the payload, with only `attrs` of
   secret nodes set, if and only if no names clash and every secret found by path fits.
   */
  lemma PayloadRoundTripExactly(j: Json, decompiled: Decompiled, strips: bool, sites: seq<Site>)
    requires WellPlaced(j, sites) && SitesOff(sites)
    requires forall c <- Elements(j, CREDENTIALS) :: c.Obj?
    ensures var holders := Holders(j, decompiled, strips);
      RoundTrip(j, holders, sites) == Marked(j, sites)
      <==> Unclashing(holders) && forall s <- sites :: Fitting(j, s)
  {
    var holders := Holders(j, decompiled, strips);
    hide Holders, RoundTrip, Marked, Unclashing, Answered, Arranged, Fitting, HolderNet, SecretMap;
    HoldersFirst(j, decompiled, strips, sites);
    PayloadHoldersPlaced(j, decompiled, strips);
    EachDecides(j, holders, SecretMap(holders), sites);
    OwnMapAnswers(holders);
  }

  // ----- with the errors the passes raise

  /**
   The cursor of the patch can walk to where each secret is filed, or ends before; only there can
   it raise an error.
   */
  predicate AllWalk(j: Json, sites: seq<Site>) {
    forall s <- sites :: Stripped(s) || KeptInPlace(s) ==> Walks(j, s.filed)
  }

  /** Neither strip nor patch raises an error at a site. */
  predicate SitesFit(j: Json, sites: seq<Site>) {
    Completes(sites) && AllWalk(j, sites)
  }

  /** What strip, echo and patch give; None when one of the two passes raises an error. */
  function Outcome(j: Json, decompiled: Decompiled, strips: bool, sites: seq<Site>): Option<Json> {
    var holders := Holders(j, decompiled, strips);
    if !NamesStrippable(j, strips) || !Completes(sites) then None
    else if !PatchRuns(StripPayload(j, holders, sites), SecretMap(holders), Records(sites), Kept(sites)) then None
    else Some(RoundTrip(j, holders, sites))
  }

  predicate NamesFit(j: Json, strips: bool) {
    NamesStrippable(j, strips) && NamesPatchable(j)
  }

  /** A secret filed at its own node is walked to; for others neither strip nor holders change the way. */
  lemma FileWalks(u: Json, holders: seq<Holder>, sites: seq<Site>, secrets: map<string, Json>, s: Site)
    requires Arranged(u, sites) && SitesOff(sites) && s in sites && forall h <- holders :: HolderPlace(h.path)
    ensures var t := StripPayload(u, holders, sites);
      Walks(Apply(t, HolderPatch(Holders(t, map[], false), secrets)), s.filed) == Walks(u, s.filed)
  {
    hide Apply, Holders, HolderStrip, HolderPatch, StripEdits, Walks, Lookup, Off, HolderPlace;
    var t := StripPayload(u, holders, sites);
    var found := Holders(t, map[], false);
    HoldersHavePlaces(t, map[], false);
    HoldersAvoid(found, secrets, s.filed);
    HoldersAvoid(holders, secrets, s.filed);
    if s.filed == s.path {
      SiteStays(u, holders, sites, s);
      ApplyFrame(t, HolderPatch(found, secrets), s.path);
      WalksToObject(u, s.path);
      WalksToObject(Apply(t, HolderPatch(found, secrets)), s.path);
    } else {
      WalksApply(u, HolderStrip(holders), s.filed);
      StripAvoidsFile(sites, s);
      WalksApply(Apply(u, HolderStrip(holders)), StripEdits(sites), s.filed);
      WalksApply(t, HolderPatch(found, secrets), s.filed);
    }
  }

  /** What the strip leaves at a site is an object. */
  lemma SiteStays(u: Json, holders: seq<Holder>, sites: seq<Site>, s: Site)
    requires Arranged(u, sites) && SitesOff(sites) && s in sites && forall h <- holders :: HolderPlace(h.path)
    ensures var t := StripPayload(u, holders, sites); Lookup(t, s.path).Some? && Lookup(t, s.path).value.Obj?
  {
    hide Apply, HolderStrip, StripEdits, Lookup, Off, HolderPlace;
    var k := Apply(u, HolderStrip(holders));
    HoldersAvoid(holders, map[], s.path);
    HoldersAvoid(holders, map[], s.filed);
    ApplyFrame(u, HolderStrip(holders), s.path);
    ApplyFrame(u, HolderStrip(holders), s.filed);
    FittingSame(u, k, s);
    StripKeepsNode(k, sites, s);
  }

  lemma HoldersAvoid(holders: seq<Holder>, secrets: map<string, Json>, q: Path)
    requires Off(q) && forall h <- holders :: HolderPlace(h.path)
    ensures Avoid(HolderStrip(holders), q) && Avoid(HolderPatch(holders, secrets), q)
  {
    forall h <- holders ensures Diverge(h.path, q) {
      OffDiverges(q, h.path);
    }
    HoldersMiss(holders, secrets, q);
  }

  /** Whether the walks of the patch raise an error can be told from the payload before the strip. */
  lemma WalksExactly(u: Json, holders: seq<Holder>, sites: seq<Site>, secrets: map<string, Json>)
    requires Arranged(u, sites) && SitesOff(sites) && forall h <- holders :: HolderPlace(h.path)
    ensures var t := StripPayload(u, holders, sites);
      var k := Apply(t, HolderPatch(Holders(t, map[], false), secrets));
      KeptWalk(k, Kept(sites)) && RecordsWalk(PatchKept(k, Kept(sites)), Records(sites)) <==> AllWalk(u, sites)
  {
    var t := StripPayload(u, holders, sites);
    var k := Apply(t, HolderPatch(Holders(t, map[], false), secrets));
    forall s <- sites ensures Walks(k, s.filed) == Walks(u, s.filed) {
      FileWalks(u, holders, sites, secrets, s);
    }
    hide StripPayload, Apply, Walks, Holders, HolderPatch, SitesOff;
    ListsWalk(k, sites);
  }

  /** The two passes of a patch over paths, in any tree. */
  lemma ListsWalk(k: Json, sites: seq<Site>)
    requires AllFiledApart(sites)
    ensures KeptWalk(k, Kept(sites)) && RecordsWalk(PatchKept(k, Kept(sites)), Records(sites)) <==> AllWalk(k, sites)
  {
    hide Walks, KeptWalk, RecordsWalk, PatchKept, ApartPaths, Stripped, KeptInPlace;
    KeptAreApart(sites);
    RecordsAreApart(sites);
    KeptWalkExactly(k, Kept(sites));
    RecordsWalkExactly(PatchKept(k, Kept(sites)), Records(sites));
    forall r <- Records(sites) ensures Walks(PatchKept(k, Kept(sites)), r.path) == Walks(k, r.path) {
      RecordPastKept(k, sites, r);
    }
    if AllWalk(k, sites) {
      forall r <- Records(sites) ensures Walks(k, r.path) {
        var s := RecordOrigin(sites, r);
      }
      forall r <- Kept(sites) ensures Walks(k, r.path) {
        var s := KeptOrigin(sites, r);
      }
    }
    forall s <- sites | Stripped(s) || KeptInPlace(s)
      ensures SecretRecord(s.filed, OrNull(s.value), s.name) in Records(sites)
              || KeptRecord(s.filed, OrNull(s.value)) in Kept(sites)
    {
      RecordExists(sites, s);
    }
  }

  lemma RecordPastKept(k: Json, sites: seq<Site>, r: SecretRecord)
    requires AllFiledApart(sites) && r in Records(sites)
    ensures Walks(PatchKept(k, Kept(sites)), r.path) == Walks(k, r.path)
  {
    var s := RecordOrigin(sites, r);
    forall u <- Kept(sites) ensures ApartPaths(u.path, r.path) {
      var t := KeptOrigin(sites, u);
      FiledApartOrSame(sites, t, s);
    }
    PatchKeptWalks(k, Kept(sites), r.path);
  }

  lemma StripStaysPatchable(j: Json, decompiled: Decompiled, strips: bool, sites: seq<Site>)
    requires SitesOff(sites)
    ensures NamesPatchable(StripPayload(j, Holders(j, decompiled, strips), sites)) == NamesPatchable(j)
  {
    var holders := Holders(j, decompiled, strips);
    StripIsHarmless(j, decompiled, strips, sites);
    hide Holders, HolderStrip, StripEdits, NamesPatchable;
    ApplySplit(j, HolderStrip(holders), StripEdits(sites));
    PatchableKept(j, HolderStrip(holders) + StripEdits(sites));
  }

  lemma CredentialsAreObjects(j: Json, strips: bool)
    requires NamesStrippable(j, strips)
    ensures forall c <- Elements(j, CREDENTIALS) :: c.Obj?
  {
  }

  /** The same law for payloads of any form: the passes raise no error, no names clash, all secrets fit. */
  lemma OutcomeExactly(j: Json, decompiled: Decompiled, strips: bool, sites: seq<Site>)
    requires Fitted(j, sites) && SitesOff(sites)
    ensures Outcome(j, decompiled, strips, sites).Some? <==> NamesFit(j, strips) && SitesFit(j, sites)
    ensures Outcome(j, decompiled, strips, sites) == Some(Marked(j, sites)) <==>
      && NamesFit(j, strips) && SitesFit(j, sites)
      && Unclashing(Holders(j, decompiled, strips)) && forall s <- sites :: Fitting(j, s)
  {
    if Completes(sites) {
      PatchRunsExactly(j, decompiled, strips, sites);
    }
    hide Holders, RoundTrip, StripPayload, Marked, NamesPatchable, NamesStrippable, Unclashing, Completes, WellPlaced,
         Fitting, PatchRuns, AllWalk, SecretMap;
    if NamesFit(j, strips) && Completes(sites) {
      CredentialsAreObjects(j, strips);
      PayloadRoundTripExactly(j, decompiled, strips, sites);
    }
  }

  /**
   The patch on the stripped payload raises an error exactly when names or places of the payload
   itself would make it.
   */
  lemma PatchRunsExactly(j: Json, decompiled: Decompiled, strips: bool, sites: seq<Site>)
    requires WellPlaced(j, sites) && SitesOff(sites)
    ensures var holders := Holders(j, decompiled, strips);
      PatchRuns(StripPayload(j, holders, sites), SecretMap(holders), Records(sites), Kept(sites))
      <==> NamesPatchable(j) && AllWalk(j, sites)
  {
    hide Holders, StripPayload, NamesPatchable, SecretMap, AllWalk, KeptWalk, RecordsWalk, Records, Kept;
    HoldersHavePlaces(j, decompiled, strips);
    StripStaysPatchable(j, decompiled, strips, sites);
    WalksExactly(j, Holders(j, decompiled, strips), sites, SecretMap(Holders(j, decompiled, strips)));
  }
}
