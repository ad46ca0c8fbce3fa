/** The patch pass as the client runs it on the payload that came back. */
module SecretPatcher {
  import opened Options
  import opened JsonTree
  import opened SecretSites
  import opened SecretWalk
  import opened SecretPayload
  import opened SecretLaw

  function NextHolder(holders: seq<Holder>, i: nat, secrets: map<string, Json>): seq<Edit>
    requires i < |holders|
  {
    if holders[i].receives && holders[i].name in secrets then [Edit(holders[i].path, Some(secrets[holders[i].name]))]
        else []
  }

  /** Patching credentials one after the other, each read from the tree as it is then. */
  lemma CredentialPatchTurn(j: Json, credentials: seq<Json>, i: nat, secrets: map<string, Json>)
    requires credentials == Elements(j, CREDENTIALS) && i < |credentials|
    ensures var before := Apply(j, HolderPatch(CredentialHolders(credentials[..i], map[]), secrets));
      && Node(before, [Key(CREDENTIALS), Idx(i)]) == credentials[i]
      && Apply(j, HolderPatch(CredentialHolders(credentials[..i+1], map[]), secrets)) ==
         var name := Text(credentials[i], "name");
         if name in secrets then Write(before, [Key(CREDENTIALS), Idx(i), Key("secret")], Some(secrets[name]))
             else before
  {
    hide IsModified;
    var holders := CredentialHolders(credentials[..i], map[]);
    var h := CredentialHolder(credentials[i], i, map[]);
    assert credentials[..i+1][..i] == credentials[..i];
    assert CredentialHolders(credentials[..i+1], map[]) == holders + [h];
    assert (holders + [h])[..i] == holders;
    var p := HolderPatch(holders, secrets);
    var more := if h.name in secrets then [Edit(h.path, Some(secrets[h.name]))] else [];
    assert HolderPatch(holders + [h], secrets) == p + more;
    ApplySplit(j, p, more);
    if h.name in secrets {
      assert more[1..] == [];
    }
    CredentialNotReached(j, holders, secrets, i);
    ElementMember(j, i, "name");
  }

  lemma CredentialNotReached(j: Json, holders: seq<Holder>, secrets: map<string, Json>, i: nat)
    requires |holders| == i && forall k | 0 <= k < i :: holders[k].path == [Key(CREDENTIALS), Idx(k), Key("secret")]
    ensures Lookup(Apply(j, HolderPatch(holders, secrets)), [Key(CREDENTIALS), Idx(i)])
            == Lookup(j, [Key(CREDENTIALS), Idx(i)])
  {
    var q := [Key(CREDENTIALS), Idx(i)];
    forall g <- holders ensures Diverge(g.path, q) {
      assert Diverge(g.path[1..], q[1..]);
    }
    HoldersMiss(holders, secrets, q);
    ApplyFrame(j, HolderPatch(holders, secrets), q);
  }

  /** After the credentials, the authentication is patched as it was found. */
  lemma AuthPatchTurn(j: Json, secrets: map<string, Json>)
    ensures var credentials := CredentialHolders(Elements(j, CREDENTIALS), map[]);
      var before := Apply(j, HolderPatch(credentials, secrets));
      var auth := OrNull(Get(before, "authentication"));
      && Get(before, "authentication") == Get(j, "authentication")
      && Apply(j, HolderPatch(Holders(j, map[], false), secrets)) ==
         if auth.Obj? && Text(auth, "username") != "" && Text(auth, "username") in secrets
         then Write(before, AUTH_PASSWORD, Some(secrets[Text(auth, "username")])) else before
  {
    var credentials := CredentialHolders(Elements(j, CREDENTIALS), map[]);
    var auth := AuthHolders(j, SecretsOf(map[], "authentication"), false);
    assert SecretsOf(map[], CREDENTIALS) == map[];
    assert Holders(j, map[], false) == credentials + auth;
    AuthPatchAlone(j, Apply(j, HolderPatch(credentials, secrets)), secrets);
    hide IsModified, HolderPatch, Apply, AuthHolders, Holders, CredentialHolders, Write, Lookup;
    HoldersMiss(credentials, secrets, [Key("authentication")]);
    ApplyFrame(j, HolderPatch(credentials, secrets), [Key("authentication")]);
    OneStep(j, Key("authentication"));
    OneStep(Apply(j, HolderPatch(credentials, secrets)), Key("authentication"));
    PatchSplit(credentials, auth, secrets);
    ApplySplit(j, HolderPatch(credentials, secrets), HolderPatch(auth, secrets));
  }

  lemma AuthPatchAlone(j: Json, k: Json, secrets: map<string, Json>)
    ensures var auth := OrNull(Get(j, "authentication"));
      Apply(k, HolderPatch(AuthHolders(j, SecretsOf(map[], "authentication"), false), secrets)) ==
         if auth.Obj? && Text(auth, "username") != "" && Text(auth, "username") in secrets
         then Write(k, AUTH_PASSWORD, Some(secrets[Text(auth, "username")])) else k
  {
    hide IsModified;
    var auth := AuthHolders(j, SecretsOf(map[], "authentication"), false);
    if auth != [] {
      assert auth[..0] == [] && HolderPatch(auth, secrets) == NextHolder(auth, 0, secrets);
      if NextHolder(auth, 0, secrets) != [] {
        assert NextHolder(auth, 0, secrets)[1..] == [];
      }
    }
  }

  lemma {:induction false} PatchSplit(a: seq<Holder>, b: seq<Holder>, secrets: map<string, Json>)
    ensures HolderPatch(a + b, secrets) == HolderPatch(a, secrets) + HolderPatch(b, secrets)
  {
    if b == [] {
      assert a + b == a;
    } else {
      var n := |b| - 1;
      assert (a + b)[..|a + b|-1] == a + b[..n];
      PatchSplit(a, b[..n], secrets);
    }
  }

  lemma PatchableNames(j: Json)
    ensures var credentials := Elements(j, CREDENTIALS);
      CredentialsPatchable(j) <==>
        && j.Obj? && Iterable(Get(j, CREDENTIALS))
        && forall i | 0 <= i < |credentials| :: NameFits(credentials[i])
  {
    hide NameFits, Elements, Iterable;
  }

  lemma NothingPatched(j: Json, secrets: map<string, Json>)
    ensures Apply(j, HolderPatch(CredentialHolders([], map[]), secrets)) == j
  {
    NoEdits(j);
  }

  class Patcher {
    var resources: Json

    constructor (resources: Json)
      ensures this.resources == resources
    {
      this.resources := resources;
    }

    /**
     The cursor walk: it stops at an object without the next key, and raises an error at anything else
     that has no such child, or at an end where no key can be assigned.
     */
    method Resolves(path: Path) returns (ok: bool, found: bool)
      ensures ok == Walks(resources, path)
      ensures ok ==> found == Lookup(resources, path).Some?
    {
      var variable := resources;
      var i := 0;
      assert path[0..] == path;
      while i < |path|
        invariant i <= |path|
        invariant Lookup(resources, path) == Lookup(variable, path[i..])
        invariant Walks(resources, path) == Walks(variable, path[i..])
      {
        assert path[i..][1..] == path[i+1..];
        match Child(variable, path[i]) {
          case None => return variable.Obj?, false;
          case Some(child) => variable := child;
        }
        i := i + 1;
      }
      return variable.Obj?, true;
    }

    method PatchCredential(i: nat, secrets: map<string, Json>)
      modifies this
      ensures var name := Text(Node(old(resources), [Key(CREDENTIALS), Idx(i)]), "name");
        resources == if name in secrets
            then Write(old(resources), [Key(CREDENTIALS), Idx(i), Key("secret")], Some(secrets[name]))
                     else old(resources)
    {
      var name := Text(Node(resources, [Key(CREDENTIALS), Idx(i)]), "name");
      if name in secrets {
        resources := Write(resources, [Key(CREDENTIALS), Idx(i), Key("secret")], Some(secrets[name]));
      }
    }

    method PatchCredentials(secrets: map<string, Json>) returns (ok: bool)
      modifies this
      ensures ok == CredentialsPatchable(old(resources))
      ensures ok ==>
                var holders := CredentialHolders(Elements(old(resources), CREDENTIALS), map[]);
                resources == Apply(old(resources), HolderPatch(holders, secrets))
    {
      ghost var j := resources;
      PatchableNames(j);
      NothingPatched(j, secrets);
      hide *;
      if !resources.Obj? || !Iterable(Get(resources, CREDENTIALS)) {
        return false;
      }
      var credentials := Elements(resources, CREDENTIALS);
      assert credentials[..0] == [];
      var i := 0;
      while i < |credentials|
        invariant i <= |credentials|
        invariant resources == Apply(j, HolderPatch(CredentialHolders(credentials[..i], map[]), secrets))
        invariant forall k | 0 <= k < i :: NameFits(credentials[k])
      {
        CredentialPatchTurn(j, credentials, i, secrets);
        if !NameFits(Node(resources, [Key(CREDENTIALS), Idx(i)])) {
          return false;
        }
        PatchCredential(i, secrets);
        i := i + 1;
      }
      assert credentials[..i] == credentials;
      ok := true;
    }

    /** `patch_secrets`; false when it raises an error. */
    method PatchSecrets(secrets: map<string, Json>, records: seq<SecretRecord>, kept: seq<KeptRecord>)
      returns (ok: bool)
      modifies this
      ensures ok == PatchRuns(old(resources), secrets, records, kept)
      ensures ok ==> resources == PatchPayload(old(resources), secrets, records, kept)
    {
      hide CredentialsPatchable, PatchAll, PatchKept, HolderPatch, Apply, KeptWalk, RecordsWalk;
      ghost var j := resources;
      AuthPatchTurn(j, secrets);
      ok := PatchCredentials(secrets);
      if !ok {
        return;
      }
      if !AuthPatchable(Get(resources, "authentication")) {
        return false;
      }
      var auth := OrNull(Get(resources, "authentication"));
      var username := Text(auth, "username");
      if auth.Obj? && username != "" && username in secrets {
        resources := Write(resources, AUTH_PASSWORD, Some(secrets[username]));
      }
      ok := PatchExisting(kept);
      if ok {
        ok := PatchStripped(records);
      }
    }

    method PatchExisting(kept: seq<KeptRecord>) returns (ok: bool)
      modifies this
      ensures ok == KeptWalk(old(resources), kept)
      ensures ok ==> resources == PatchKept(old(resources), kept)
    {
      hide Walks;
      var i := 0;
      assert kept[0..] == kept;
      while i < |kept|
        invariant i <= |kept|
        invariant PatchKept(resources, kept[i..]) == PatchKept(old(resources), kept)
        invariant KeptWalk(resources, kept[i..]) == KeptWalk(old(resources), kept)
      {
        var walks, found := Resolves(kept[i].path);
        if !walks {
          return false;
        }
        assert kept[i..][0] == kept[i] && kept[i..][1..] == kept[i+1..];
        if found {
          resources := Write(resources, kept[i].path + [ATTRS], Some(UNMODIFIED));
        }
        i := i + 1;
      }
      ok := true;
    }

    method PatchStripped(records: seq<SecretRecord>) returns (ok: bool)
      modifies this
      ensures ok == RecordsWalk(old(resources), records)
      ensures ok ==> resources == PatchAll(old(resources), records)
    {
      hide Walks;
      var i := 0;
      assert records[0..] == records;
      while i < |records|
        invariant i <= |records|
        invariant PatchAll(resources, records[i..]) == PatchAll(old(resources), records)
        invariant RecordsWalk(resources, records[i..]) == RecordsWalk(old(resources), records)
      {
        var walks, found := Resolves(records[i].path);
        if !walks {
          return false;
        }
        assert records[i..][0] == records[i] && records[i..][1..] == records[i+1..];
        if found {
          resources := Write(resources, records[i].path + [ATTRS], Some(MODIFIED));
          resources := Write(resources, records[i].path + [VALUE], Some(records[i].secret));
        }
        i := i + 1;
      }
      ok := true;
    }
  }

  lemma NoEdits(j: Json)
    ensures Apply(j, []) == j
  {
  }
}
