/**
 Stripping and patching of secrets, for any list of sites in any payload tree.

 A site is one place the strip pass stops at: the node it edits (`path`), the path it files the
 secret under (`filed`), and what it read there. `SecretWalk` computes the sites of a payload.
 */
module SecretSites {
  import opened Options
  import opened JsonTree

  type Known = map<string, Json>

  datatype Kind =
    | Variable        // a SECRET variable or header: `value` is popped, `attrs` is set
    | OptionPassword  // password of a dynamic variable's HTTP task: the whole node is replaced
    | TaskPassword    // password of an action's HTTP task: the whole node is replaced
    | AuthPassword    // password held directly by `authentication`: the whole node is replaced
    | Missing         // something the strip reads here is not there, or not of the kind it needs: it raises

  datatype Site = Site(kind: Kind, path: Path, filed: Path, name: Json, value: Option<Json>, known: Known)

  datatype SecretRecord = SecretRecord(path: Path, secret: Json, name: Json)
  datatype KeptRecord = KeptRecord(path: Path, secret: Json)

  const ATTRS := Key("attrs")
  const VALUE := Key("value")
  const MODIFIED: Json := Obj(map["is_secret_modified" := Bool(true)])
  const UNMODIFIED: Json := Obj(map["is_secret_modified" := Bool(false)])
  const UNSET_REFERENCE: Json := Obj(map["is_secret_modified" := Bool(false), "secret_reference" := Null])

  /** A secret differs from what decompilation recorded for its context, or was not recorded. */
  predicate IsModified(known: Known, name: Json, value: Json) {
    if name.Str? && name.s in known then known[name.s] != value else true
  }

  predicate Stripped(s: Site) {
    s.kind != Missing && (s.kind == OptionPassword || IsModified(s.known, s.name, OrNull(s.value)))
  }

  predicate KeptInPlace(s: Site) {
    s.kind != Missing && !Stripped(s) && Truthy(OrNull(s.value))
  }

  /** The strip raises an error at the site: only the password of an option is popped with a default. */
  predicate Fails(s: Site) {
    s.kind == Missing || (Stripped(s) && s.kind != OptionPassword && s.value.None?)
  }

  /** The strip passes all sites without an error. */
  predicate Completes(sites: seq<Site>) {
    forall s | s in sites :: !Fails(s)
  }

  lemma CompletesBoth(a: seq<Site>, b: seq<Site>)
    ensures Completes(a + b) <==> Completes(a) && Completes(b)
  {
    assert forall s :: s in a + b <==> s in a || s in b;
  }

  /** What a stripped password node is replaced by. */
  function Placeholder(kind: Kind): Json {
    match kind
    case Variable => Null
    case Missing => Null
    case OptionPassword => Obj(map["value" := Null, "attrs" := UNMODIFIED])
    case TaskPassword => Obj(map["attrs" := UNSET_REFERENCE])
    case AuthPassword => Obj(map["attrs" := UNMODIFIED])
  }

  function SiteStrip(s: Site): seq<Edit> {
    if !Stripped(s) then []
    else if s.kind == Variable then
      [Edit(s.path + [VALUE], None), Edit(s.path + [ATTRS], Some(UNSET_REFERENCE))]
    else [Edit(s.path, Some(Placeholder(s.kind)))]
  }

  function StripEdits(sites: seq<Site>): seq<Edit> {
    if sites == [] then [] else SiteStrip(sites[0]) + StripEdits(sites[1..])
  }

  function Records(sites: seq<Site>): seq<SecretRecord> {
    if sites == [] then []
    else (if Stripped(sites[0]) then [SecretRecord(sites[0].filed, OrNull(sites[0].value), sites[0].name)] else [])
         + Records(sites[1..])
  }

  function Kept(sites: seq<Site>): seq<KeptRecord> {
    if sites == [] then []
    else (if KeptInPlace(sites[0]) then [KeptRecord(sites[0].filed, OrNull(sites[0].value))] else [])
         + Kept(sites[1..])
  }

  // ----- patching

  function PatchOne(j: Json, r: SecretRecord): Json {
    if Lookup(j, r.path).Some? then
      Write(Write(j, r.path + [ATTRS], Some(MODIFIED)), r.path + [VALUE], Some(r.secret))
    else j
  }

  function PatchAll(j: Json, records: seq<SecretRecord>): Json
    decreases |records|
  {
    if records == [] then j else PatchAll(PatchOne(j, records[0]), records[1..])
  }

  function PatchKeptOne(j: Json, k: KeptRecord): Json {
    if Lookup(j, k.path).Some? then Write(j, k.path + [ATTRS], Some(UNMODIFIED)) else j
  }

  function PatchKept(j: Json, kept: seq<KeptRecord>): Json
    decreases |kept|
  {
    if kept == [] then j else PatchKept(PatchKeptOne(j, kept[0]), kept[1..])
  }

  // ----- errors while patching

  /**
   The cursor raises no error on its way along `p`, nor when it assigns a key at the end: it leaves an
   object that lacks the next key, and steps into nothing but objects and lists that are long enough.
   */
  predicate Walks(j: Json, p: Path) {
    if p == [] then j.Obj?
    else match j
      case Obj(_) => Child(j, p[0]).Some? ==> Walks(Child(j, p[0]).value, p[1..])
      case Arr(_) => Child(j, p[0]).Some? && Walks(Child(j, p[0]).value, p[1..])
      case _ => false
  }

  /** `patch_secrets` walks the paths of kept and stripped secrets, each in the tree the earlier ones left. */
  predicate KeptWalk(j: Json, kept: seq<KeptRecord>)
    decreases |kept|
  {
    kept == [] || (Walks(j, kept[0].path) && KeptWalk(PatchKeptOne(j, kept[0]), kept[1..]))
  }

  predicate RecordsWalk(j: Json, records: seq<SecretRecord>)
    decreases |records|
  {
    records == [] || (Walks(j, records[0].path) && RecordsWalk(PatchOne(j, records[0]), records[1..]))
  }

  // ----- which sites do not disturb each other

  /** `inner` lies below `outer`, but not through `attrs` or `value`. */
  predicate Within(outer: Path, inner: Path) {
    outer < inner && inner[|outer|] != ATTRS && inner[|outer|] != VALUE
  }

  predicate ApartPaths(p: Path, q: Path) {
    Diverge(p, q) || Within(p, q) || Within(q, p)
  }

  predicate Apart(s: Site, t: Site) {
    || Diverge(s.path, t.path)
    || (s.kind == Variable && Within(s.path, t.path))
    || (t.kind == Variable && Within(t.path, s.path))
  }

  /** A secret filed away from its own node is filed away from every node of the strip. */
  predicate Clear(s: Site, t: Site) {
    s.filed == s.path || Diverge(s.filed, t.path)
  }

  /** The site describes what the tree holds at its path. */
  predicate Truthful(j: Json, s: Site) {
    Lookup(j, s.path).Some? && Lookup(j, s.path).value.Obj? && s.value == Get(Lookup(j, s.path).value, "value")
  }

  /** There is an object at the site's path, with a `value` if and only if the site has one. */
  predicate Located(j: Json, s: Site) {
    && Lookup(j, s.path).Some? && Lookup(j, s.path).value.Obj?
    && s.value.Some? == Get(Lookup(j, s.path).value, "value").Some?
  }

  ghost predicate AllApart(sites: seq<Site>) {
    forall i, k | 0 <= i < |sites| && 0 <= k < |sites| && i != k :: Apart(sites[i], sites[k])
  }

  /** No two secrets are filed at one path, or one at `attrs` or `value` of the other. */
  ghost predicate AllFiledApart(sites: seq<Site>) {
    forall i, k | 0 <= i < |sites| && 0 <= k < |sites| && i != k :: ApartPaths(sites[i].filed, sites[k].filed)
  }

  /** Sites of one tree that do not disturb each other, whatever the values they carry. */
  ghost predicate Arranged(j: Json, sites: seq<Site>) {
    && (forall s <- sites :: Located(j, s))
    && AllApart(sites)
    && AllFiledApart(sites)
    && (forall s, t | s in sites && t in sites :: Clear(s, t))
  }

  ghost predicate WellPlaced(j: Json, sites: seq<Site>) {
    Arranged(j, sites) && forall s <- sites :: Truthful(j, s)
  }

  // ----- lists

  lemma SitesSplit(a: seq<Site>, b: seq<Site>)
    ensures StripEdits(a + b) == StripEdits(a) + StripEdits(b)
    ensures Records(a + b) == Records(a) + Records(b)
    ensures Kept(a + b) == Kept(a) + Kept(b)
  {
    StripEditsSplit(a, b);
    RecordsSplit(a, b);
    KeptSplit(a, b);
  }

  lemma {:induction false} StripEditsSplit(a: seq<Site>, b: seq<Site>)
    ensures StripEdits(a + b) == StripEdits(a) + StripEdits(b)
  {
    hide SiteStrip;
    if a == [] {
      assert a + b == b;
    } else {
      assert (a + b)[1..] == a[1..] + b;
      StripEditsSplit(a[1..], b);
    }
  }

  lemma {:induction false} RecordsSplit(a: seq<Site>, b: seq<Site>)
    ensures Records(a + b) == Records(a) + Records(b)
  {
    if a == [] {
      assert a + b == b;
    } else {
      assert (a + b)[1..] == a[1..] + b;
      RecordsSplit(a[1..], b);
    }
  }

  lemma {:induction false} KeptSplit(a: seq<Site>, b: seq<Site>)
    ensures Kept(a + b) == Kept(a) + Kept(b)
  {
    if a == [] {
      assert a + b == b;
    } else {
      var first := if KeptInPlace(a[0]) then [KeptRecord(a[0].filed, OrNull(a[0].value))] else [];
      assert (a + b)[1..] == a[1..] + b;
      assert Kept(a + b) == first + Kept(a[1..] + b) && Kept(a) == first + Kept(a[1..]);
      KeptSplit(a[1..], b);
      hide KeptInPlace, Kept;
    }
  }

  lemma {:induction false} PatchAllSplit(j: Json, a: seq<SecretRecord>, b: seq<SecretRecord>)
    ensures PatchAll(j, a + b) == PatchAll(PatchAll(j, a), b)
    decreases |a|
  {
    if a == [] {
      assert a + b == b;
    } else {
      assert (a + b)[1..] == a[1..] + b;
      PatchAllSplit(PatchOne(j, a[0]), a[1..], b);
    }
  }

  lemma {:induction false} EditOrigin(sites: seq<Site>, e: Edit) returns (s: Site)
    requires e in StripEdits(sites)
    ensures s in sites && e in SiteStrip(s)
  {
    if e in SiteStrip(sites[0]) {
      s := sites[0];
    } else {
      s := EditOrigin(sites[1..], e);
    }
  }

  lemma {:induction false} RecordOrigin(sites: seq<Site>, r: SecretRecord) returns (s: Site)
    requires r in Records(sites)
    ensures s in sites && Stripped(s) && r == SecretRecord(s.filed, OrNull(s.value), s.name)
  {
    if Stripped(sites[0]) && r == SecretRecord(sites[0].filed, OrNull(sites[0].value), sites[0].name) {
      s := sites[0];
    } else {
      s := RecordOrigin(sites[1..], r);
    }
  }

  lemma {:induction false} KeptOrigin(sites: seq<Site>, k: KeptRecord) returns (s: Site)
    requires k in Kept(sites)
    ensures s in sites && KeptInPlace(s) && k == KeptRecord(s.filed, OrNull(s.value))
  {
    if KeptInPlace(sites[0]) && k == KeptRecord(sites[0].filed, OrNull(sites[0].value)) {
      s := sites[0];
    } else {
      s := KeptOrigin(sites[1..], k);
    }
  }

  // ----- separation of the writes of two sites

  /** The writes a patch makes at one path. */
  function PatchEdits(r: SecretRecord): seq<Edit> {
    [Edit(r.path + [ATTRS], Some(MODIFIED)), Edit(r.path + [VALUE], Some(r.secret))]
  }

  /** A write of `attrs` or `value` at the outer path misses everything at the inner one. */
  lemma WithinWrites(p: Path, q: Path, a: Step, y: Path)
    requires Within(p, q) && a in {ATTRS, VALUE}
    ensures Diverge(p + [a], q + y) && Diverge(q + y, p + [a])
  {
    DivergeAt(p, a, q[|p|], [], q[|p|+1..] + y);
    assert p + [a] + [] == p + [a];
    assert p + [q[|p|]] + (q[|p|+1..] + y) == q + y;
    DivergeSymmetric(p + [a], q + y);
  }

  lemma ApartPathsWrites(p: Path, q: Path, a: Step, b: Step)
    requires ApartPaths(p, q) && a in {ATTRS, VALUE} && b in {ATTRS, VALUE}
    ensures Diverge(p + [a], q + [b])
  {
    if Diverge(p, q) {
      DivergeExtend(p, q, [a], [b]);
    } else if Within(p, q) {
      WithinWrites(p, q, a, [b]);
    } else {
      WithinWrites(q, p, b, [a]);
    }
  }

  /** No write of one site meets the node (a password) or the two keys (a variable) of the other. */
  lemma {:induction false} ApartWrites(s: Site, t: Site, x: Path, y: Path)
    requires Apart(s, t)
    requires x in {[ATTRS], [VALUE]} || (x == [] && s.kind != Variable)
    requires y in {[ATTRS], [VALUE]} || (y == [] && t.kind != Variable)
    ensures Diverge(s.path + x, t.path + y)
  {
    if Diverge(s.path, t.path) {
      DivergeExtend(s.path, t.path, x, y);
    } else if s.kind == Variable && Within(s.path, t.path) {
      assert x == [x[0]];
      WithinWrites(s.path, t.path, x[0], y);
    } else {
      assert y == [y[0]];
      WithinWrites(t.path, s.path, y[0], x);
    }
  }

  lemma ClearWrites(s: Site, t: Site, x: Path, y: Path)
    requires Clear(s, t) && s.filed != s.path
    ensures Diverge(s.filed + x, t.path + y)
  {
    DivergeExtend(s.filed, t.path, x, y);
  }

  // ----- framing of the passes

  lemma {:induction false} PatchAllFrame(j: Json, records: seq<SecretRecord>, q: Path)
    requires forall r <- records :: Diverge(r.path + [ATTRS], q) && Diverge(r.path + [VALUE], q)
    ensures Lookup(PatchAll(j, records), q) == Lookup(j, q)
    decreases |records|
  {
    if records != [] {
      var r := records[0];
      assert r in records;
      WriteFrame(j, r.path + [ATTRS], Some(MODIFIED), q);
      WriteFrame(Write(j, r.path + [ATTRS], Some(MODIFIED)), r.path + [VALUE], Some(r.secret), q);
      PatchAllFrame(PatchOne(j, r), records[1..], q);
    }
  }

  lemma {:induction false} PatchKeptFrame(j: Json, kept: seq<KeptRecord>, q: Path)
    requires forall k <- kept :: Diverge(k.path + [ATTRS], q)
    ensures Lookup(PatchKept(j, kept), q) == Lookup(j, q)
    decreases |kept|
  {
    if kept != [] {
      assert kept[0] in kept;
      WriteFrame(j, kept[0].path + [ATTRS], Some(UNMODIFIED), q);
      PatchKeptFrame(PatchKeptOne(j, kept[0]), kept[1..], q);
    }
  }

  /** Whether a node exists, and whether it is an object, is not changed by a patch apart from it. */
  lemma PatchKeepsNode(j: Json, r: SecretRecord, q: Path)
    requires ApartPaths(r.path, q) || r.path == q
    ensures Lookup(PatchOne(j, r), q).Some? == Lookup(j, q).Some?
    ensures Lookup(j, q).Some? ==> Lookup(PatchOne(j, r), q).value.Obj? == Lookup(j, q).value.Obj?
  {
    WriteKeepsNode(j, r.path, ATTRS, Some(MODIFIED), q);
    WriteKeepsNode(Write(j, r.path + [ATTRS], Some(MODIFIED)), r.path, VALUE, Some(r.secret), q);
  }

  lemma WriteKeepsNode(j: Json, p: Path, a: Step, v: Option<Json>, q: Path)
    requires ApartPaths(p, q) || p == q
    requires a in {ATTRS, VALUE}
    ensures Lookup(Write(j, p + [a], v), q).Some? == Lookup(j, q).Some?
    ensures Lookup(j, q).Some? ==> Lookup(Write(j, p + [a], v), q).value.Obj? == Lookup(j, q).value.Obj?
  {
    if Diverge(p, q) {
      DivergeExtend(p, q, [a], []);
      assert q + [] == q;
      WriteFrame(j, p + [a], v, q);
    } else if p != q && Within(p, q) {
      DivergeAt(p, a, q[|p|], [], q[|p|+1..]);
      assert p + [a] + [] == p + [a] && p + [q[|p|]] + q[|p|+1..] == q;
      WriteFrame(j, p + [a], v, q);
    } else {
      assert q <= p && p + [a] == q + (p[|q|..] + [a]);
      WriteBelow(j, q, p[|q|..] + [a], v);
    }
  }

  // ----- order does not matter

  lemma PatchOneCommute(j: Json, r: SecretRecord, u: SecretRecord)
    requires ApartPaths(r.path, u.path)
    ensures PatchOne(PatchOne(j, r), u) == PatchOne(PatchOne(j, u), r)
  {
    PatchKeepsNode(j, r, u.path);
    ApartPathsSymmetric(r.path, u.path);
    PatchKeepsNode(j, u, r.path);
    if Lookup(j, r.path).Some? && Lookup(j, u.path).Some? {
      var a, b := PatchEdits(r), PatchEdits(u);
      forall e <- b ensures Avoid(a, e.path) {
        forall d <- a ensures Diverge(d.path, e.path) {
          ApartPathsWrites(r.path, u.path, d.path[|r.path|], e.path[|u.path|]);
        }
      }
      ApplyCommute(j, a, b);
      ApplyTwo(j, a);
      ApplyTwo(j, b);
      ApplyTwo(Apply(j, a), b);
      ApplyTwo(Apply(j, b), a);
    }
  }

  lemma ApplyTwo(j: Json, e: seq<Edit>)
    requires |e| == 2
    ensures Apply(j, e) == Write(Write(j, e[0].path, e[0].value), e[1].path, e[1].value)
  {
    assert e[1..] == [e[1]];
    var k := Write(j, e[0].path, e[0].value);
    assert Apply(k, e[1..]) == Apply(Write(k, e[1].path, e[1].value), []);
  }

  lemma ApartPathsSymmetric(p: Path, q: Path)
    ensures ApartPaths(p, q) == ApartPaths(q, p)
  {
    DivergeSymmetric(p, q);
  }

  // ----- one patch does not decide whether another raises an error

  /** Writing elsewhere keeps a walk. */
  lemma {:induction false} WalksFrame(j: Json, p: Path, v: Option<Json>, q: Path)
    requires Diverge(p, q)
    ensures Walks(Write(j, p, v), q) == Walks(j, q)
  {
    if p[0] != q[0] {
      OtherChild(j, p, v, q[0]);
    } else if |p| > 1 && Child(j, p[0]).Some? {
      var c := Child(j, p[0]).value;
      WalksFrame(c, p[1..], v, q[1..]);
      PutChildTwice(j, p[0], Write(c, p[1..], v), c);
    }
  }

  lemma {:induction false} OtherChild(j: Json, p: Path, v: Option<Json>, s: Step)
    requires p != [] && p[0] != s
    ensures Child(Write(j, p, v), s) == Child(j, s)
    ensures Write(j, p, v).Obj? == j.Obj? && Write(j, p, v).Arr? == j.Arr?
  {
  }

  lemma {:induction false} WalksApply(j: Json, edits: seq<Edit>, q: Path)
    requires Avoid(edits, q)
    ensures Walks(Apply(j, edits), q) == Walks(j, q)
    decreases |edits|
  {
    if edits != [] {
      var e := edits[0];
      assert e in edits;
      WalksFrame(j, e.path, e.value, q);
      WalksApply(Write(j, e.path, e.value), edits[1..], q);
    }
  }

  /** So does writing below its end. */
  lemma {:induction false} WalksBelow(j: Json, q: Path, r: Path, v: Option<Json>)
    requires r != []
    ensures Walks(Write(j, q + r, v), q) == Walks(j, q)
  {
    if q == [] {
      assert q + r == r;
    } else {
      assert (q + r)[1..] == q[1..] + r;
      if Child(j, q[0]).Some? {
        var c := Child(j, q[0]).value;
        WalksBelow(c, q[1..], r, v);
        PutChildTwice(j, q[0], Write(c, (q + r)[1..], v), c);
      }
    }
  }

  /** A walk to an object raises no error. */
  lemma {:induction false} WalksToObject(j: Json, q: Path)
    requires Lookup(j, q).Some? && Lookup(j, q).value.Obj?
    ensures Walks(j, q)
  {
    if q != [] {
      WalksToObject(Child(j, q[0]).value, q[1..]);
    }
  }

  lemma WalksPastWrite(j: Json, p: Path, a: Step, v: Option<Json>, q: Path)
    requires ApartPaths(p, q) && a in {ATTRS, VALUE}
    ensures Walks(Write(j, p + [a], v), q) == Walks(j, q)
  {
    if Diverge(p, q) {
      DivergeExtend(p, q, [a], []);
      assert q + [] == q;
      WalksFrame(j, p + [a], v, q);
    } else if Within(p, q) {
      WithinWrites(p, q, a, []);
      assert q + [] == q;
      WalksFrame(j, p + [a], v, q);
    } else {
      assert p + [a] == q + (p[|q|..] + [a]);
      WalksBelow(j, q, p[|q|..] + [a], v);
    }
  }

  lemma PatchOneWalks(j: Json, r: SecretRecord, q: Path)
    requires ApartPaths(r.path, q)
    ensures Walks(PatchOne(j, r), q) == Walks(j, q)
  {
    WalksPastWrite(j, r.path, ATTRS, Some(MODIFIED), q);
    WalksPastWrite(Write(j, r.path + [ATTRS], Some(MODIFIED)), r.path, VALUE, Some(r.secret), q);
  }

  lemma {:induction false} PatchKeptWalks(j: Json, kept: seq<KeptRecord>, q: Path)
    requires forall k <- kept :: ApartPaths(k.path, q)
    ensures Walks(PatchKept(j, kept), q) == Walks(j, q)
    decreases |kept|
  {
    if kept != [] {
      assert kept[0] in kept;
      WalksPastWrite(j, kept[0].path, ATTRS, Some(UNMODIFIED), q);
      PatchKeptWalks(PatchKeptOne(j, kept[0]), kept[1..], q);
    }
  }

  /** With paths apart, it is each path's own matter in the tree the patch begins with. */
  lemma {:induction false} RecordsWalkExactly(j: Json, records: seq<SecretRecord>)
    requires PairwiseApart(records)
    ensures RecordsWalk(j, records) <==> forall r <- records :: Walks(j, r.path)
    decreases |records|
  {
    hide Walks, PatchOne, ApartPaths;
    if records != [] {
      var r, rest := records[0], records[1..];
      var k := PatchOne(j, r);
      RecordsWalkExactly(k, rest);
      forall i | 0 <= i < |rest| ensures Walks(k, rest[i].path) == Walks(j, rest[i].path) {
        assert rest[i] == records[i+1];
        PatchOneWalks(j, r, rest[i].path);
      }
      assert records == [r] + rest;
    }
  }

  ghost predicate KeptApart(kept: seq<KeptRecord>) {
    forall i, k | 0 <= i < k < |kept| :: ApartPaths(kept[i].path, kept[k].path)
  }

  lemma {:induction false} KeptWalkExactly(j: Json, kept: seq<KeptRecord>)
    requires KeptApart(kept)
    ensures KeptWalk(j, kept) <==> forall k <- kept :: Walks(j, k.path)
    decreases |kept|
  {
    hide Walks, ApartPaths;
    if kept != [] {
      var r, rest := kept[0], kept[1..];
      var k := PatchKeptOne(j, r);
      KeptWalkExactly(k, rest);
      forall i | 0 <= i < |rest| ensures Walks(k, rest[i].path) == Walks(j, rest[i].path) {
        assert rest[i] == kept[i+1];
        WalksPastWrite(j, r.path, ATTRS, Some(UNMODIFIED), rest[i].path);
      }
      assert kept == [r] + rest;
    }
  }

  ghost predicate PairwiseApart(records: seq<SecretRecord>) {
    forall i, k | 0 <= i < k < |records| :: ApartPaths(records[i].path, records[k].path)
  }

  /** The patch may pick any record first. */
  lemma {:induction false} PatchAnyFirst(j: Json, records: seq<SecretRecord>, i: nat)
    requires i < |records| && PairwiseApart(records)
    ensures PatchAll(j, records) == PatchAll(PatchOne(j, records[i]), records[..i] + records[i+1..])
    decreases i
  {
    if i == 0 {
      assert records[..0] + records[1..] == records[1..];
    } else {
      var rest := records[1..];
      PatchAnyFirst(PatchOne(j, records[0]), rest, i - 1);
      PatchOneCommute(j, records[0], records[i]);
      assert rest[..i-1] + rest[i..] == (records[..i] + records[i+1..])[1..];
    }
  }

  lemma RemoveOne(a: seq<SecretRecord>, i: nat)
    requires i < |a| && PairwiseApart(a)
    ensures PairwiseApart(a[..i] + a[i+1..])
    ensures multiset(a[..i] + a[i+1..]) == multiset(a) - multiset{a[i]}
  {
    var a' := a[..i] + a[i+1..];
    forall m, n | 0 <= m < n < |a'| ensures ApartPaths(a'[m].path, a'[n].path) {
      assert a'[m] == a[if m < i then m else m + 1] && a'[n] == a[if n < i then n else n + 1];
    }
    assert a == a[..i] + [a[i]] + a[i+1..];
  }

  lemma {:induction false} FindFirst(a: seq<SecretRecord>, b: seq<SecretRecord>) returns (i: nat)
    requires multiset(a) == multiset(b) && b != []
    ensures i < |a| && a[i] == b[0]
    ensures multiset(b[1..]) == multiset(a) - multiset{a[i]}
  {
    assert b[0] in multiset(b);
    i :| 0 <= i < |a| && a[i] == b[0];
    assert b == [b[0]] + b[1..];
  }

  /** The patch may walk any record first. */
  lemma WalkAnyFirst(j: Json, records: seq<SecretRecord>, i: nat)
    requires i < |records| && PairwiseApart(records)
    ensures RecordsWalk(j, records)
       <==> Walks(j, records[i].path) && RecordsWalk(PatchOne(j, records[i]), records[..i] + records[i+1..])
  {
    hide Walks, PatchOne, RecordsWalk;
    var r, others := records[i], records[..i] + records[i+1..];
    RemoveOne(records, i);
    RecordsWalkExactly(j, records);
    RecordsWalkExactly(PatchOne(j, r), others);
    forall m | 0 <= m < |others| ensures Walks(PatchOne(j, r), others[m].path) == Walks(j, others[m].path) {
      assert others[m] == records[if m < i then m else m + 1];
      ApartPathsSymmetric(r.path, others[m].path);
      PatchOneWalks(j, r, others[m].path);
    }
    assert forall u <- others :: Walks(PatchOne(j, r), u.path) == Walks(j, u.path);
    assert records == records[..i] + [r] + records[i+1..];
    assert forall u :: u in records <==> u == r || u in others;
    hide PairwiseApart;
  }

  /** `patch_secrets` gives the same tree, or the same error, for every order of its secret variables. */
  lemma {:induction false} PatchOrderIrrelevant(j: Json, a: seq<SecretRecord>, b: seq<SecretRecord>)
    requires multiset(a) == multiset(b) && PairwiseApart(a)
    ensures PatchAll(j, a) == PatchAll(j, b)
    ensures RecordsWalk(j, a) == RecordsWalk(j, b)
    decreases |b|
  {
    if b == [] {
      assert |multiset(a)| == 0 && a == [];
    } else {
      hide Walks, PatchOne, ApartPaths;
      var i := FindFirst(a, b);
      PatchAnyFirst(j, a, i);
      WalkAnyFirst(j, a, i);
      RemoveOne(a, i);
      PatchOrderIrrelevant(PatchOne(j, b[0]), a[..i] + a[i+1..], b[1..]);
    }
  }
}
