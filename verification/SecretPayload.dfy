/** Secrets of a whole payload: credentials and endpoint authentication by name, all others by path. */
module SecretPayload {
  import opened Options
  import opened JsonTree
  import opened SecretSites
  import opened SecretWalk

  const CREDENTIALS := "credential_definition_list"
  const AUTH_PASSWORD: Path := [Key("authentication"), Key("password")]
  const CREDENTIAL_PLACEHOLDER: Json := Obj(map["attrs" := UNSET_REFERENCE])
  const AUTH_PLACEHOLDER: Json := Obj(map["attrs" := Obj(map["is_secret_modified" := Bool(false), "value" := Null])])

  /**
   One place a secret is taken from, and given back to, by name. `receives` says that the patch
   looks at it at all: `patch_secrets` skips an authentication whose username is empty.
   */
  datatype Holder = Holder(path: Path, name: string, secret: Option<Json>, stripped: bool, receives: bool,
                           placeholder: Json)

  function CredentialHolder(credential: Json, i: nat, known: Known): Holder {
    Holder([Key(CREDENTIALS), Idx(i), Key("secret")], Text(credential, "name"), Get(credential, "secret"),
           IsModified(known, OrNull(Get(credential, "name")), Node(credential, [Key("secret"), Key("value")])),
           true, CREDENTIAL_PLACEHOLDER)
  }

  function CredentialHolders(credentials: seq<Json>, known: Known): (holders: seq<Holder>)
    ensures |holders| == |credentials|
    ensures forall i | 0 <= i < |holders| :: holders[i] == CredentialHolder(credentials[i], i, known)
  {
    if credentials == [] then []
    else
      var n := |credentials| - 1;
      CredentialHolders(credentials[..n], known) + [CredentialHolder(credentials[n], n, known)]
  }

  /** `strips` is false for payloads whose strip pass leaves `authentication` alone. */
  function AuthHolders(resources: Json, known: Known, strips: bool): (holders: seq<Holder>)
    ensures |holders| <= 1 && forall h <- holders :: h.path == AUTH_PASSWORD
  {
    var auth := OrNull(Get(resources, "authentication"));
    if !auth.Obj? then []
    else
      [Holder(AUTH_PASSWORD, Text(auth, "username"), Get(auth, "password"),
              strips && HasType(auth, "basic")
              && IsModified(known, OrNull(Get(auth, "username")), OrNull(Get(auth, "password"))),
              Text(auth, "username") != "", AUTH_PLACEHOLDER)]
  }

  function Holders(resources: Json, decompiled: Decompiled, strips: bool): seq<Holder> {
    CredentialHolders(Elements(resources, CREDENTIALS), SecretsOf(decompiled, CREDENTIALS))
    + AuthHolders(resources, SecretsOf(decompiled, "authentication"), strips)
  }

  /** `pop(..., {})` */
  function Popped(secret: Option<Json>): Json {
    match secret case None => Obj(map[]) case Some(s) => s
  }

  function HolderStrip(holders: seq<Holder>): seq<Edit> {
    if holders == [] then []
    else
      var n := |holders| - 1;
      HolderStrip(holders[..n]) + (if holders[n].stripped then [Edit(holders[n].path, Some(holders[n].placeholder))]
                                   else [])
  }

  /** `secret_map`: the last stripped secret of each name. */
  function SecretMap(holders: seq<Holder>): map<string, Json> {
    if holders == [] then map[]
    else
      var n := |holders| - 1;
      var m := SecretMap(holders[..n]);
      if holders[n].stripped then m[holders[n].name := Popped(holders[n].secret)] else m
  }

  function HolderPatch(holders: seq<Holder>, secrets: map<string, Json>): seq<Edit> {
    if holders == [] then []
    else
      var n := |holders| - 1;
      HolderPatch(holders[..n], secrets)
      + (if holders[n].receives && holders[n].name in secrets
         then [Edit(holders[n].path, Some(secrets[holders[n].name]))] else [])
  }

  /**
   No two holders of one name disagree once one of them is stripped, and nothing is stripped that
   the patch will not look at.
   */
  predicate Unclashing(holders: seq<Holder>) {
    && (forall i, k | 0 <= i < |holders| && 0 <= k < |holders| ::
          holders[i].stripped && holders[k].receives && holders[i].name == holders[k].name
          ==> holders[k].secret == Some(Popped(holders[i].secret)))
    && (forall h <- holders :: h.stripped && !h.receives ==> h.secret == Some(h.placeholder))
  }

  // ----- what is read by name, or an error raised

  predicate CredentialFits(c: Json) {
    Get(c, "name").Some? && Hashable(Get(c, "name").value) && Lookup(c, [Key("secret"), VALUE]).Some?
  }

  /** `strip_credentials`, and the endpoint authentication of `strip_secrets` when `strips`. */
  predicate NamesStrippable(j: Json, strips: bool) {
    CredentialsStrippable(j) && (strips ==> AuthStrippable(OrNull(Get(j, "authentication"))))
  }

  predicate CredentialsStrippable(j: Json) {
    j.Obj? && Listable(Get(j, CREDENTIALS)) && forall c | c in Elements(j, CREDENTIALS) :: CredentialFits(c)
  }

  predicate AuthStrippable(auth: Json) {
    && ObjOrFalsy(auth)
    && (HasType(auth, "basic") ==>
          Get(auth, "username").Some? && Hashable(Get(auth, "username").value) && Get(auth, "password").Some?)
  }

  /** The two loops of `patch_secrets` over names. */
  predicate NamesPatchable(j: Json) {
    CredentialsPatchable(j) && AuthPatchable(Get(j, "authentication"))
  }

  predicate CredentialsPatchable(j: Json) {
    j.Obj? && Iterable(Get(j, CREDENTIALS)) && forall c | c in Elements(j, CREDENTIALS) :: NameFits(c)
  }

  predicate NameFits(c: Json) {
    Get(c, "name").Some? && Hashable(Get(c, "name").value)
  }

  predicate AuthPatchable(auth: Option<Json>) {
    var username := OrNull(Get(OrNull(auth), "username"));
    ObjOrAbsent(auth) && (!Truthy(username) || Hashable(username))
  }

  // ----- by name

  ghost predicate HoldersPlaced(j: Json, holders: seq<Holder>) {
    && (forall i, k | 0 <= i < |holders| && 0 <= k < |holders| && i != k :: Diverge(holders[i].path, holders[k].path))
    && (forall h <- holders :: h.path != [] && h.path[|h.path|-1].Key? && h.secret == Lookup(j, h.path)
          && Lookup(j, h.path[..|h.path|-1]).Some? && Lookup(j, h.path[..|h.path|-1]).value.Obj?)
  }

  lemma {:induction false} SecretMapOrigin(holders: seq<Holder>, name: string)
    ensures name in SecretMap(holders) <==> exists h <- holders :: h.stripped && h.name == name
    ensures name in SecretMap(holders) ==>
              exists h <- holders :: h.stripped && h.name == name && SecretMap(holders)[name] == Popped(h.secret)
  {
    if holders != [] {
      var n := |holders| - 1;
      SecretMapOrigin(holders[..n], name);
      assert holders == holders[..n] + [holders[n]];
    }
  }

  /** What strip, echo and patch leave at one holder. */
  function Returned(h: Holder, secrets: map<string, Json>): Option<Json> {
    if h.receives && h.name in secrets then Some(secrets[h.name])
    else if h.stripped then Some(h.placeholder)
    else h.secret
  }

  /** Only the last holder, the authentication, may be skipped by the patch. */
  predicate CredentialsFirst(holders: seq<Holder>) {
    forall i | 0 <= i < |holders| - 1 :: holders[i].receives
  }

  /** All holders came back exactly when no names clash. */
  lemma ReturnedExactly(holders: seq<Holder>)
    requires CredentialsFirst(holders)
    ensures (forall h <- holders :: Returned(h, SecretMap(holders)) == h.secret) <==> Unclashing(holders)
  {
    var m := SecretMap(holders);
    if Unclashing(holders) {
      forall h <- holders ensures Returned(h, m) == h.secret {
        SecretMapOrigin(holders, h.name);
        if h.receives && h.name in m {
          var g :| g in holders && g.stripped && g.name == h.name && m[h.name] == Popped(g.secret);
          var i :| 0 <= i < |holders| && holders[i] == g;
          var k :| 0 <= k < |holders| && holders[k] == h;
        }
      }
    }
    if forall h <- holders :: Returned(h, m) == h.secret {
      forall i, k | 0 <= i < |holders| && 0 <= k < |holders|
        && holders[i].stripped && holders[k].receives && holders[i].name == holders[k].name
        ensures holders[k].secret == Some(Popped(holders[i].secret))
      {
        SecretMapOrigin(holders, holders[i].name);
        assert holders[i] in holders && holders[k] in holders;
        assert Returned(holders[i], m) == holders[i].secret && Returned(holders[k], m) == holders[k].secret;
      }
    }
  }

  /** Each secret that is patched is what the map has under its name, and each other one was not taken. */
  predicate Answered(holders: seq<Holder>, secrets: map<string, Json>) {
    forall h <- holders ::
      if h.receives && h.name in secrets then h.secret == Some(secrets[h.name])
      else h.stripped ==> h.secret == Some(h.placeholder)
  }

  lemma AnsweredIsReturned(holders: seq<Holder>, secrets: map<string, Json>)
    ensures Answered(holders, secrets) <==> forall h <- holders :: Returned(h, secrets) == h.secret
  {
  }

  /** The map filled from the holders themselves answers exactly when no names clash. */
  lemma OwnMapAnswers(holders: seq<Holder>)
    requires CredentialsFirst(holders)
    ensures Answered(holders, SecretMap(holders)) <==> Unclashing(holders)
  {
    hide SecretMap, Unclashing;
    ReturnedExactly(holders);
    AnsweredIsReturned(holders, SecretMap(holders));
  }

  // ----- strip and patch of all holders

  /** Exactly the holder at `p` answers for `p`; every other place is left alone. */
  lemma {:induction false} HolderEdits(holders: seq<Holder>, secrets: map<string, Json>)
    ensures forall e <- HolderStrip(holders) + HolderPatch(holders, secrets) :: exists h <- holders :: e.path == h.path
  {
    if holders != [] {
      var n := |holders| - 1;
      HolderEdits(holders[..n], secrets);
      assert holders == holders[..n] + [holders[n]];
    }
  }

  lemma HoldersMiss(holders: seq<Holder>, secrets: map<string, Json>, q: Path)
    requires forall h <- holders :: Diverge(h.path, q)
    ensures Avoid(HolderStrip(holders), q) && Avoid(HolderPatch(holders, secrets), q)
  {
    HolderEdits(holders, secrets);
    forall e <- HolderStrip(holders) ensures Diverge(e.path, q) {
      assert e in HolderStrip(holders) + HolderPatch(holders, secrets);
    }
    forall e <- HolderPatch(holders, secrets) ensures Diverge(e.path, q) {
      assert e in HolderStrip(holders) + HolderPatch(holders, secrets);
    }
  }

  function HolderNet(holders: seq<Holder>, secrets: map<string, Json>): seq<Edit> {
    if holders == [] then []
    else
      var n := |holders| - 1;
      HolderNet(holders[..n], secrets) + OneNet(holders[n], secrets)
  }

  function OneNet(h: Holder, secrets: map<string, Json>): seq<Edit> {
    (if h.stripped then [Edit(h.path, Some(h.placeholder))] else [])
    + (if h.receives && h.name in secrets then [Edit(h.path, Some(secrets[h.name]))] else [])
  }

  /** Every holder's patch can be moved next to its strip. */
  lemma {:induction false} HolderRegroup(j: Json, holders: seq<Holder>, secrets: map<string, Json>)
    requires forall i, k | 0 <= i < |holders| && 0 <= k < |holders|
             && i != k :: Diverge(holders[i].path, holders[k].path)
    ensures Apply(Apply(j, HolderStrip(holders)), HolderPatch(holders, secrets))
            == Apply(j, HolderNet(holders, secrets))
  {
    if holders != [] {
      var n := |holders| - 1;
      var before, h := holders[..n], holders[n];
      var S, P := HolderStrip(before), HolderPatch(before, secrets);
      var s := if h.stripped then [Edit(h.path, Some(h.placeholder))] else [];
      var p := if h.receives && h.name in secrets then [Edit(h.path, Some(secrets[h.name]))] else [];
      HolderRegroup(j, before, secrets);
      HoldersMiss(before, secrets, h.path);
      ApplySplit(j, S, s);
      ApplySplit(Apply(Apply(j, S), s), P, p);
      ApplyCommute(Apply(j, S), P, s);
      ApplySplit(j, HolderNet(before, secrets), OneNet(h, secrets));
      ApplySplit(Apply(j, HolderNet(before, secrets)), s, p);
    }
  }

  lemma {:induction false} NetMiss(holders: seq<Holder>, secrets: map<string, Json>, q: Path)
    requires forall h <- holders :: Diverge(h.path, q)
    ensures Avoid(HolderNet(holders, secrets), q)
    ensures forall e <- HolderNet(holders, secrets) :: e.value.Some?
  {
    if holders != [] {
      var n := |holders| - 1;
      NetMiss(holders[..n], secrets, q);
      assert holders[n] in holders;
    }
  }

  /** At each holder: what came back. */
  lemma {:induction false} NetReads(j: Json, holders: seq<Holder>, secrets: map<string, Json>, k: nat)
    requires HoldersPlaced(j, holders) && k < |holders|
    ensures Lookup(Apply(j, HolderNet(holders, secrets)), holders[k].path) == Returned(holders[k], secrets)
  {
    hide OneNet, Apply, Lookup;
    var n := |holders| - 1;
    var before, h := holders[..n], holders[n];
    ApplySplit(j, HolderNet(before, secrets), OneNet(h, secrets));
    if k < n {
      NetReads(j, before, secrets, k);
      OneNetMiss(h, secrets, holders[k].path);
      ApplyFrame(Apply(j, HolderNet(before, secrets)), OneNet(h, secrets), holders[k].path);
    } else {
      LastNetReads(j, before, secrets, h);
    }
  }

  lemma OneNetMiss(h: Holder, secrets: map<string, Json>, q: Path)
    requires Diverge(h.path, q)
    ensures Avoid(OneNet(h, secrets), q)
  {
  }

  lemma {:induction false} LastNetReads(j: Json, before: seq<Holder>, secrets: map<string, Json>, h: Holder)
    requires forall g <- before :: Diverge(g.path, h.path)
    requires h.path != [] && h.path[|h.path|-1].Key? && h.secret == Lookup(j, h.path)
    requires Lookup(j, h.path[..|h.path|-1]).Some? && Lookup(j, h.path[..|h.path|-1]).value.Obj?
    ensures Lookup(Apply(Apply(j, HolderNet(before, secrets)), OneNet(h, secrets)), h.path) == Returned(h, secrets)
  {
    NetMiss(before, secrets, h.path);
    ApplyFrame(j, HolderNet(before, secrets), h.path);
    ParentStays(j, before, secrets, h.path);
    OneNetReads(Apply(j, HolderNet(before, secrets)), h, secrets);
  }

  lemma {:induction false} OneNetReads(m: Json, h: Holder, secrets: map<string, Json>)
    requires h.path != [] && h.path[|h.path|-1].Key? && h.secret == Lookup(m, h.path)
    requires Lookup(m, h.path[..|h.path|-1]).Some? && Lookup(m, h.path[..|h.path|-1]).value.Obj?
    ensures Lookup(Apply(m, OneNet(h, secrets)), h.path) == Returned(h, secrets)
  {
    var p := h.path[..|h.path|-1];
    assert h.path == p + [h.path[|h.path|-1]];
    if h.receives && h.name in secrets {
      var w := secrets[h.name];
      AssignKey(m, p, h.path[|h.path|-1].key, w);
      if h.stripped {
        WriteTwice(m, h.path, Some(h.placeholder), w);
        ApplyTwo(m, OneNet(h, secrets));
      } else {
        assert OneNet(h, secrets)[1..] == [];
      }
    } else if h.stripped {
      AssignKey(m, p, h.path[|h.path|-1].key, h.placeholder);
      assert OneNet(h, secrets)[1..] == [];
    }
  }

  /** Assigning a key of an object that exists. */
  lemma AssignKey(j: Json, p: Path, k: string, v: Json)
    requires Lookup(j, p).Some? && Lookup(j, p).value.Obj?
    ensures Lookup(Write(j, p + [Key(k)], Some(v)), p + [Key(k)]) == Some(v)
  {
    var c := PutChild(Lookup(j, p).value, Key(k), Some(v));
    WriteSplit(j, p, [Key(k)], Some(v));
    ReadBack(j, p, c);
    LookupSplit(Write(j, p, Some(c)), p, [Key(k)]);
    OneStep(c, Key(k));
  }

  /** The object a holder's secret is a member of survives the edits of the other holders. */
  lemma ParentStays(j: Json, before: seq<Holder>, secrets: map<string, Json>, q: Path)
    requires forall h <- before :: Diverge(h.path, q)
    requires q != [] && q[|q|-1].Key?
    requires Lookup(j, q[..|q|-1]).Some? && Lookup(j, q[..|q|-1]).value.Obj?
    ensures var p := q[..|q|-1];
      Lookup(Apply(j, HolderNet(before, secrets)), p).Some?
          && Lookup(Apply(j, HolderNet(before, secrets)), p).value.Obj?
  {
    NetMiss(before, secrets, q);
    ObjectStays(j, HolderNet(before, secrets), q);
  }

  lemma {:induction false} ObjectStays(j: Json, edits: seq<Edit>, q: Path)
    requires Avoid(edits, q) && q != [] && (forall e <- edits :: e.value.Some?)
    requires Lookup(j, q[..|q|-1]).Some? && Lookup(j, q[..|q|-1]).value.Obj?
    ensures Lookup(Apply(j, edits), q[..|q|-1]).Some? && Lookup(Apply(j, edits), q[..|q|-1]).value.Obj?
    decreases |edits|
  {
    if edits != [] {
      var e, p := edits[0], q[..|q|-1];
      assert e in edits;
      DivergeParent(e.path, q);
      if Diverge(e.path, p) {
        WriteFrame(j, e.path, e.value, p);
      } else {
        assert e.path == p + e.path[|p|..];
        WriteBelow(j, p, e.path[|p|..], e.value);
      }
      ObjectStays(Write(j, e.path, e.value), edits[1..], q);
    }
  }

  /** A path that diverges from a key diverges from its object or lies below that object. */
  lemma {:induction false} DivergeParent(e: Path, q: Path)
    requires Diverge(e, q)
    ensures Diverge(e, q[..|q|-1]) || q[..|q|-1] < e
  {
    if |q| == 1 {
      assert q[..0] == [];
    } else if e[0] == q[0] {
      DivergeParent(e[1..], q[1..]);
      assert q[..|q|-1][1..] == q[1..][..|q|-2];
      if q[1..][..|q|-2] < e[1..] {
        assert q[..|q|-1] == [q[0]] + q[1..][..|q|-2] && e == [e[0]] + e[1..];
      }
    }
  }
}
