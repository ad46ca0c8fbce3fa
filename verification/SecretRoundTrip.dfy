/** Strip, then patch: exactly when the payload comes back, and what it looks like. */
module SecretRoundTrip {
  import opened Options
  import opened JsonTree
  import opened SecretSites

  /** The tree after a strip, a server that echoes it, and a patch, for the given sites. */
  function StripThenPatch(j: Json, sites: seq<Site>): Json {
    PatchAll(PatchKept(Apply(j, StripEdits(sites)), Kept(sites)), Records(sites))
  }

  function SiteMark(s: Site): seq<Edit> {
    if Stripped(s) then [Edit(s.path + [ATTRS], Some(MODIFIED))] else []
  }

  function Marks(sites: seq<Site>): seq<Edit> {
    if sites == [] then [] else SiteMark(sites[0]) + Marks(sites[1..])
  }

  function KeptMarks(sites: seq<Site>): seq<Edit> {
    if sites == [] then []
    else
      (if KeptInPlace(sites[0]) then [Edit(sites[0].path + [ATTRS], Some(UNMODIFIED))] else [])
      + KeptMarks(sites[1..])
  }

  /**
   The tree the round trip is meant to give. At each secret's own node `attrs` says whether it is
   modified: it is not when the secret stayed in the tree. All values stay, and so does all else.
   */
  function Marked(j: Json, sites: seq<Site>): Json {
    Apply(Apply(j, KeptMarks(sites)), Marks(sites))
  }

  /**
   A secret that stays in the tree is marked at its own node; one filed elsewhere must have the mark
   already, and no other object at its file path whose `attrs` would be overwritten.
   */
  predicate KeptFits(j: Json, s: Site) {
    || s.filed == s.path
    || (&& Lookup(j, s.path + [ATTRS]) == Some(UNMODIFIED)
        && (Node(j, s.filed).Obj? ==> Get(Node(j, s.filed), "attrs") == Some(UNMODIFIED)))
  }

  /** The secret was filed where it was found, is the one the tree had, and a replaced node had nothing else to lose. */
  predicate Restorable(j: Json, s: Site) {
    && s.filed == s.path
    && s.value.Some? && s.value == Get(Node(j, s.path), "value")
    && (s.kind == Variable || (Node(j, s.path).Obj? && Node(j, s.path).fields.Keys <= {"value", "attrs"}))
  }

  function SitePatch(s: Site): seq<Edit> {
    if Stripped(s) then
      [Edit(s.path + [ATTRS], Some(MODIFIED)), Edit(s.path + [VALUE], Some(OrNull(s.value)))]
    else []
  }

  function Patches(sites: seq<Site>): seq<Edit> {
    if sites == [] then [] else SitePatch(sites[0]) + Patches(sites[1..])
  }

  function Nets(sites: seq<Site>): seq<Edit> {
    if sites == [] then [] else SiteStrip(sites[0]) + SitePatch(sites[0]) + Nets(sites[1..])
  }

  lemma AllApartTail(sites: seq<Site>)
    requires AllApart(sites) && sites != []
    ensures AllApart(sites[1..])
    ensures forall t <- sites[1..] :: Apart(sites[0], t) && Apart(t, sites[0])
  {
    var rest := sites[1..];
    forall i, k | 0 <= i < |rest| && 0 <= k < |rest| && i != k ensures Apart(rest[i], rest[k]) {
      assert rest[i] == sites[i + 1] && rest[k] == sites[k + 1];
    }
    forall t <- rest ensures Apart(sites[0], t) && Apart(t, sites[0]) {
      var i :| 0 <= i < |rest| && rest[i] == t;
      assert sites[i + 1] == t;
    }
  }

  lemma ApartOrSame(sites: seq<Site>, s: Site, t: Site)
    requires AllApart(sites) && s in sites && t in sites
    ensures s == t || Apart(s, t)
  {
    var i :| 0 <= i < |sites| && sites[i] == s;
    var k :| 0 <= k < |sites| && sites[k] == t;
  }

  // ----- one site's writes, and all sites' writes, against another site's place

  /** `e` is a write of the kind site `s` makes. */
  predicate OfSite(e: Edit, s: Site) {
    e.path in {s.path + [ATTRS], s.path + [VALUE]} || (e.path == s.path && s.kind != Variable)
  }

  lemma OfSiteSuffix(e: Edit, s: Site) returns (x: Path)
    requires OfSite(e, s)
    ensures e.path == s.path + x
    ensures x in {[ATTRS], [VALUE]} || (x == [] && s.kind != Variable)
  {
    x := if e.path == s.path then [] else if e.path == s.path + [ATTRS] then [ATTRS] else [VALUE];
  }

  lemma {:induction false} EditsOfSites(sites: seq<Site>, e: Edit) returns (s: Site)
    requires e in StripEdits(sites) || e in Patches(sites) || e in Marks(sites)
    ensures s in sites && Stripped(s) && OfSite(e, s)
  {
    if e in SiteStrip(sites[0]) || e in SitePatch(sites[0]) || e in SiteMark(sites[0]) {
      s := sites[0];
    } else {
      s := EditsOfSites(sites[1..], e);
    }
  }

  /** Edits of sites apart from `s` do not meet `s`. */
  lemma {:induction false} OthersAvoid(edits: seq<Edit>, others: seq<Site>, s: Site, x: Path)
    requires forall e <- edits :: e in StripEdits(others) || e in Patches(others) || e in Marks(others)
    requires forall t <- others :: Apart(t, s)
    requires x in {[ATTRS], [VALUE]} || (x == [] && s.kind != Variable)
    ensures Avoid(edits, s.path + x)
  {
    forall e <- edits ensures Diverge(e.path, s.path + x) {
      var t := EditsOfSites(others, e);
      var y := OfSiteSuffix(e, t);
      ApartWrites(t, s, y, x);
    }
  }

  /** Everything `s` relies on is the same in both trees. */
  predicate SameAt(j: Json, k: Json, s: Site) {
    if s.kind == Variable then
      && Lookup(j, s.path).Some? && Lookup(k, s.path).Some?
      && Lookup(j, s.path).value.Obj? && Lookup(k, s.path).value.Obj?
      && Lookup(j, s.path + [VALUE]) == Lookup(k, s.path + [VALUE])
    else Lookup(j, s.path) == Lookup(k, s.path)
  }

  lemma SameAtTruth(j: Json, k: Json, s: Site)
    requires SameAt(j, k, s) && Located(j, s)
    ensures Located(k, s) && Restorable(k, s) == Restorable(j, s)
  {
    if s.kind == Variable {
      LookupSplit(j, s.path, [VALUE]);
      LookupSplit(k, s.path, [VALUE]);
      assert forall c: Json :: Lookup(c, [VALUE]) == Get(c, "value");
    }
  }

  lemma OneWriteSameAt(j: Json, e: Edit, t: Site, s: Site)
    requires Apart(t, s) && OfSite(e, t) && Located(j, s)
    ensures SameAt(j, Write(j, e.path, e.value), s)
  {
    var y := OfSiteSuffix(e, t);
    if s.kind != Variable {
      ApartWrites(t, s, y, []);
      assert s.path + [] == s.path;
      WriteFrame(j, e.path, e.value, s.path);
    } else {
      ApartWrites(t, s, y, [VALUE]);
      WriteFrame(j, e.path, e.value, s.path + [VALUE]);
      if y == [] {
        // a replaced node is either elsewhere or strictly below the variable
        if Diverge(t.path, s.path) {
          WriteFrame(j, e.path, e.value, s.path);
        } else {
          assert t.path == s.path + t.path[|s.path|..];
          WriteBelow(j, s.path, t.path[|s.path|..], e.value);
        }
      } else {
        WriteKeepsNode(j, t.path, y[0], e.value, s.path);
      }
    }
  }

  lemma {:induction false} EditsSameAt(j: Json, edits: seq<Edit>, others: seq<Site>, s: Site)
    requires forall e <- edits :: e in StripEdits(others) || e in Patches(others) || e in Marks(others)
    requires forall t <- others :: Apart(t, s)
    requires Located(j, s)
    ensures SameAt(j, Apply(j, edits), s)
    decreases |edits|
  {
    if edits != [] {
      var e := edits[0];
      var t := EditsOfSites(others, e);
      OneWriteSameAt(j, e, t, s);
      var k := Write(j, e.path, e.value);
      SameAtTruth(j, k, s);
      EditsSameAt(k, edits[1..], others, s);
    }
  }

  // ----- the writes of one site cancel out

  /** Two writes into the object at `p` make one object. */
  lemma TwoKeys(j: Json, p: Path, a: Step, v: Option<Json>, b: Step, w: Option<Json>)
    requires Lookup(j, p).Some?
    ensures var c := PutChild(PutChild(Lookup(j, p).value, a, v), b, w);
            Write(Write(j, p + [a], v), p + [b], w) == Write(j, p, Some(c))
  {
    var c1 := PutChild(Lookup(j, p).value, a, v);
    WriteSplit(j, p, [a], v);
    ReadBack(j, p, c1);
    WriteSplit(Write(j, p, Some(c1)), p, [b], w);
    if p != [] {
      WriteTwice(j, p, Some(c1), PutChild(c1, b, w));
    }
  }

  /** Strip and patch at one restorable site leave only the mark. */
  lemma NetOfSite(j: Json, s: Site)
    requires Stripped(s) && Located(j, s) && Restorable(j, s)
    ensures Apply(Apply(j, SiteStrip(s)), SitePatch(s)) == Apply(j, SiteMark(s))
  {
    var c := Lookup(j, s.path).value;
    var c1 := if s.kind == Variable then Obj((c.fields - {"value"})["attrs" := UNSET_REFERENCE])
        else Placeholder(s.kind);
    assert Apply(j, SiteStrip(s)) == Write(j, s.path, Some(c1)) by {
      if s.kind == Variable {
        ApplyTwo(j, SiteStrip(s));
        TwoKeys(j, s.path, VALUE, None, ATTRS, Some(UNSET_REFERENCE));
      } else {
        assert SiteStrip(s)[1..] == [];
      }
    }
    var want := Obj(c.fields["attrs" := MODIFIED]);
    ApplyTwo(Apply(j, SiteStrip(s)), SitePatch(s));
    NodeContents(c, c1, s);
    RestoreNode(j, s.path, c1, s.value.value, want);
    WriteSplit(j, s.path, [ATTRS], Some(MODIFIED));
    assert SiteMark(s)[1..] == [];
  }

  lemma NodeContents(c: Json, c1: Json, s: Site)
    requires c.Obj? && s.value == Get(c, "value") && s.value.Some? && s.kind != Missing
    requires c1 == if s.kind == Variable then Obj((c.fields - {"value"})["attrs" := UNSET_REFERENCE])
             else Placeholder(s.kind)
    requires s.kind == Variable || c.fields.Keys <= {"value", "attrs"}
    ensures c1.Obj? && c1.fields["attrs" := MODIFIED]["value" := s.value.value] == c.fields["attrs" := MODIFIED]
  {
    var m, n := c1.fields["attrs" := MODIFIED]["value" := s.value.value], c.fields["attrs" := MODIFIED];
    assert m.Keys == n.Keys;
    assert forall k <- m :: m[k] == n[k];
  }

  lemma {:induction false} RestoreNode(j: Json, p: Path, c1: Json, v: Json, want: Json)
    requires Lookup(j, p).Some? && c1.Obj?
    requires want == Obj(c1.fields["attrs" := MODIFIED]["value" := v])
    ensures Write(Write(Write(j, p, Some(c1)), p + [ATTRS], Some(MODIFIED)), p + [VALUE], Some(v))
         == Write(j, p, Some(want))
  {
    ReadBack(j, p, c1);
    TwoKeys(Write(j, p, Some(c1)), p, ATTRS, Some(MODIFIED), VALUE, Some(v));
    if p != [] {
      WriteTwice(j, p, Some(c1), want);
    }
  }

  // ----- all sites

  lemma {:induction false} PatchAllIsApply(j: Json, sites: seq<Site>)
    requires AllApart(sites)
    requires forall s <- sites :: Stripped(s) ==> s.filed == s.path && Lookup(j, s.path).Some?
    ensures PatchAll(j, Records(sites)) == Apply(j, Patches(sites))
    decreases |sites|
  {
    if sites != [] {
      var s, rest := sites[0], sites[1..];
      AllApartTail(sites);
      if Stripped(s) {
        var r := SecretRecord(s.filed, OrNull(s.value), s.name);
        assert Records(sites)[0] == r && Records(sites)[1..] == Records(rest);
        var k := PatchOne(j, r);
        ApplySplit(j, SitePatch(s), Patches(rest));
        ApplyTwo(j, SitePatch(s));
        forall t <- rest | Stripped(t) ensures Lookup(k, t.path).Some? {
          PatchKeepsNode(j, r, t.path);
        }
        PatchAllIsApply(k, rest);
      } else {
        assert Records(sites) == Records(rest) && Patches(sites) == Patches(rest);
        PatchAllIsApply(j, rest);
      }
    }
  }

  /** Group every site's patch with its strip. */
  lemma {:induction false} Regroup(j: Json, sites: seq<Site>)
    requires AllApart(sites)
    ensures Apply(Apply(j, StripEdits(sites)), Patches(sites)) == Apply(j, Nets(sites))
    decreases |sites|
  {
    if sites != [] {
      var s, rest := sites[0], sites[1..];
      AllApartTail(sites);
      var a, p := SiteStrip(s), SitePatch(s);
      var S, P := StripEdits(rest), Patches(rest);
      forall e <- p ensures Avoid(S, e.path) {
        var x := OfSiteSuffix(e, s);
        forall d <- S ensures Diverge(d.path, e.path) {
          var t := EditsOfSites(rest, d);
          var y := OfSiteSuffix(d, t);
          ApartWrites(t, s, y, x);
        }
      }
      ApplySplit(j, a, S);
      ApplySplit(Apply(Apply(j, a), S), p, P);
      ApplyCommute(Apply(j, a), S, p);
      Regroup(Apply(Apply(j, a), p), rest);
      ApplySplit(j, a + p, Nets(rest));
      ApplySplit(j, a, p);
    }
  }

  lemma {:induction false} NetsAreMarks(j: Json, sites: seq<Site>)
    requires AllApart(sites)
    requires forall s <- sites :: Stripped(s) ==> Located(j, s) && Restorable(j, s)
    ensures Apply(j, Nets(sites)) == Apply(j, Marks(sites))
    decreases |sites|
  {
    if sites != [] {
      var s, rest := sites[0], sites[1..];
      AllApartTail(sites);
      ApplySplit(j, SiteStrip(s) + SitePatch(s), Nets(rest));
      ApplySplit(j, SiteStrip(s), SitePatch(s));
      ApplySplit(j, SiteMark(s), Marks(rest));
      if Stripped(s) {
        NetOfSite(j, s);
        var k := Apply(j, SiteMark(s));
        assert SiteMark(s)[1..] == [];
        forall t <- rest | Stripped(t) ensures Located(k, t) && Restorable(k, t) {
          OneWriteSameAt(j, SiteMark(s)[0], s, t);
          SameAtTruth(j, k, t);
        }
      }
      NetsAreMarks(Apply(j, SiteMark(s)), rest);
    }
  }

  /** The strip leaves an object at every site. */
  lemma StripKeepsNode(j: Json, sites: seq<Site>, s: Site)
    requires AllApart(sites) && s in sites && Located(j, s)
    ensures Lookup(Apply(j, StripEdits(sites)), s.path).Some?
    ensures Lookup(Apply(j, StripEdits(sites)), s.path).value.Obj?
  {
    var k, m, after := StripAround(j, sites, s);
    OwnStrip(k, s);
    NodeSurvives(m, StripEdits(after), after, s.path, s);
  }

  /** The strip, seen from one site: what others did before, its own writes, what others do after. */
  lemma StripAround(j: Json, sites: seq<Site>, s: Site) returns (k: Json, m: Json, after: seq<Site>)
    requires AllApart(sites) && s in sites && Located(j, s)
    ensures Located(k, s) && SameAt(j, k, s) && m == Apply(k, SiteStrip(s))
    ensures Apply(j, StripEdits(sites)) == Apply(m, StripEdits(after))
    ensures forall t <- after :: t in sites && Apart(t, s)
  {
    var i :| 0 <= i < |sites| && sites[i] == s;
    var before := sites[..i];
    after := sites[i+1..];
    assert sites == before + ([s] + after);
    SitesSplit(before, [s] + after);
    SitesSplit([s], after);
    assert StripEdits([s]) == SiteStrip(s) by { assert [s][1..] == []; }
    ApplySplit(j, StripEdits(before), SiteStrip(s) + StripEdits(after));
    k := Apply(j, StripEdits(before));
    ApplySplit(k, SiteStrip(s), StripEdits(after));
    m := Apply(k, SiteStrip(s));
    EditsSameAt(j, StripEdits(before), before, s);
    SameAtTruth(j, k, s);
  }

  lemma OwnStrip(k: Json, s: Site)
    requires Located(k, s)
    ensures Lookup(Apply(k, SiteStrip(s)), s.path).Some?
    ensures Lookup(Apply(k, SiteStrip(s)), s.path).value.Obj?
    ensures Stripped(s) && s.kind != Variable ==> Lookup(Apply(k, SiteStrip(s)), s.path) == Some(Placeholder(s.kind))
    ensures Stripped(s) && s.kind == Variable ==>
              Lookup(Apply(k, SiteStrip(s)), s.path)
              == Some(Obj((Lookup(k, s.path).value.fields - {"value"})["attrs" := UNSET_REFERENCE]))
  {
    if Stripped(s) {
      if s.kind == Variable {
        ApplyTwo(k, SiteStrip(s));
        TwoKeys(k, s.path, VALUE, None, ATTRS, Some(UNSET_REFERENCE));
        ReadBack(k, s.path, Obj((Lookup(k, s.path).value.fields - {"value"})["attrs" := UNSET_REFERENCE]));
      } else {
        assert SiteStrip(s)[1..] == [];
        ReadBack(k, s.path, Placeholder(s.kind));
      }
    }
  }

  lemma {:induction false} NodeSurvives(j: Json, edits: seq<Edit>, others: seq<Site>, q: Path, s: Site)
    requires forall e <- edits :: e in StripEdits(others)
    requires forall t <- others :: Apart(t, s)
    requires q == s.path && Lookup(j, q).Some? && Lookup(j, q).value.Obj?
    ensures Lookup(Apply(j, edits), q).Some? && Lookup(Apply(j, edits), q).value.Obj?
    decreases |edits|
  {
    if edits != [] {
      var e := edits[0];
      var t := EditsOfSites(others, e);
      var here := s.(value := Get(Lookup(j, q).value, "value"));
      OneWriteSameAt(j, e, t, here);
      NodeSurvives(Write(j, e.path, e.value), edits[1..], others, q, s);
    }
  }

  // ----- marks on secrets that were left in place

  /** Marking the node at `q` and the write `e` do not affect each other. */
  predicate Compatible(q: Path, e: Edit) {
    Diverge(q + [ATTRS], e.path) && (Diverge(q, e.path) || q < e.path)
  }

  lemma {:induction false} KeptPastEdits(j: Json, k: KeptRecord, edits: seq<Edit>)
    requires forall e <- edits :: Compatible(k.path, e)
    ensures PatchKeptOne(Apply(j, edits), k) == Apply(PatchKeptOne(j, k), edits)
    ensures Lookup(Apply(j, edits), k.path).Some? == Lookup(j, k.path).Some?
    decreases |edits|
  {
    if edits != [] {
      var e := edits[0];
      assert e in edits;
      var j' := Write(j, e.path, e.value);
      DivergeSymmetric(e.path, k.path);
      DivergeSymmetric(e.path, k.path + [ATTRS]);
      if Diverge(k.path, e.path) {
        WriteFrame(j, e.path, e.value, k.path);
      } else {
        assert e.path == k.path + e.path[|k.path|..];
        WriteBelow(j, k.path, e.path[|k.path|..], e.value);
      }
      WriteCommute(j, e.path, e.value, k.path + [ATTRS], Some(UNMODIFIED));
      KeptPastEdits(j', k, edits[1..]);
    }
  }

  lemma {:induction false} AllKeptPastEdits(j: Json, kept: seq<KeptRecord>, edits: seq<Edit>)
    requires forall k <- kept, e <- edits :: Compatible(k.path, e)
    ensures PatchKept(Apply(j, edits), kept) == Apply(PatchKept(j, kept), edits)
    decreases |kept|
  {
    if kept != [] {
      assert kept[0] in kept;
      KeptPastEdits(j, kept[0], edits);
      AllKeptPastEdits(PatchKeptOne(j, kept[0]), kept[1..], edits);
    }
  }

  lemma KeptCompatible(j: Json, sites: seq<Site>, k: KeptRecord, e: Edit)
    requires Arranged(j, sites) && k in Kept(sites) && e in StripEdits(sites)
    ensures Compatible(k.path, e)
  {
    var s := KeptOrigin(sites, k);
    var t := EditsOfSites(sites, e);
    ApartOrSame(sites, s, t);
    if s.filed != s.path {
      assert Clear(s, t);
      ClearCompatible(s, t, e);
    } else {
      ApartCompatible(s, t, e);
    }
  }

  lemma ClearCompatible(s: Site, t: Site, e: Edit)
    requires Clear(s, t) && s.filed != s.path && OfSite(e, t)
    ensures Compatible(s.filed, e)
  {
    var y := OfSiteSuffix(e, t);
    ClearWrites(s, t, [ATTRS], y);
    ClearWrites(s, t, [], y);
    assert s.filed + [] == s.filed;
  }

  lemma ApartCompatible(s: Site, t: Site, e: Edit)
    requires Apart(s, t) && OfSite(e, t)
    ensures Compatible(s.path, e)
  {
    var y := OfSiteSuffix(e, t);
    ApartWrites(s, t, [ATTRS], y);
    assert s.path + [] == s.path;
    if Diverge(s.path, t.path) {
      DivergeExtend(s.path, t.path, [], y);
    } else if t.kind == Variable && Within(t.path, s.path) {
      assert y == [y[0]];
      WithinWrites(t.path, s.path, y[0], []);
    } else {
      BelowExtended(s.path, t.path, y);
    }
  }

  lemma BelowExtended(p: Path, q: Path, y: Path)
    requires p < q
    ensures p < q + y
  {
  }

  /** One step below a site that its own strip may have changed. */
  predicate StepOf(s: Site, x: Path) {
    |x| == 1 && (s.kind == Variable ==> x in {[ATTRS], [VALUE]})
  }

  /** Marking and patching apart from `s` do not reach one step below it. */
  lemma ApartBelow(t: Site, s: Site, a: Step, x: Path)
    requires Apart(t, s) && a in {ATTRS, VALUE} && StepOf(s, x)
    ensures Diverge(t.path + [a], s.path + x)
  {
    if s.kind == Variable {
      ApartWrites(t, s, [a], x);
    } else {
      ApartWrites(t, s, [a], []);
      DivergeExtend(t.path + [a], s.path, [], x);
      assert s.path + [] == s.path && t.path + [a] + [] == t.path + [a];
    }
  }

  lemma KeptMissesSite(j: Json, sites: seq<Site>, s: Site, x: Path, k: KeptRecord)
    requires Arranged(j, sites) && s in sites && k in Kept(sites)
    requires Stripped(s) && StepOf(s, x)
    ensures Diverge(k.path + [ATTRS], s.path + x)
  {
    var t := KeptOrigin(sites, k);
    ApartOrSame(sites, s, t);
    if t.filed != t.path {
      assert Clear(t, s);
      ClearWrites(t, s, [ATTRS], x);
    } else {
      ApartBelow(t, s, ATTRS, x);
    }
  }

  lemma KeptSameAt(j: Json, sites: seq<Site>, s: Site)
    requires Arranged(j, sites) && s in sites && Stripped(s)
    ensures SameAt(j, PatchKept(j, Kept(sites)), s)
  {
    KeptPrefixSameAt(j, sites, Kept(sites), s);
  }

  lemma {:induction false} KeptPrefixSameAt(j: Json, sites: seq<Site>, kept: seq<KeptRecord>, s: Site)
    requires AllApart(sites)
    requires forall a, b | a in sites && b in sites :: Clear(a, b)
    requires s in sites && Stripped(s) && Located(j, s)
    requires forall k <- kept :: k in Kept(sites)
    ensures SameAt(j, PatchKept(j, kept), s)
    decreases |kept|
  {
    if kept != [] {
      var k := kept[0];
      var t := KeptOrigin(sites, k);
      ApartOrSame(sites, s, t);
      if Lookup(j, k.path).Some? {
        var e := Edit(k.path + [ATTRS], Some(UNMODIFIED));
        var moved := t.(path := t.filed, kind := Variable);
        if t.filed != t.path {
          assert Clear(t, s);
        }
        OneWriteSameAt(j, e, moved, s);
        SameAtTruth(j, PatchKeptOne(j, k), s);
      }
      KeptPrefixSameAt(PatchKeptOne(j, k), sites, kept[1..], s);
    }
  }

  // ----- the law

  /** The round trip restores everything when every secret fits. */
  lemma RestoredWhenRestorable(j: Json, sites: seq<Site>)
    requires Arranged(j, sites)
    requires forall s <- sites :: Stripped(s) ==> Restorable(j, s)
    requires forall s <- sites :: KeptInPlace(s) ==> KeptFits(j, s)
    ensures StripThenPatch(j, sites) == Marked(j, sites)
  {
    StrippedRestored(j, sites);
    KeptMarkedRight(j, sites);
  }

  /** Every stripped secret is restored, whatever the pass over the kept ones does. */
  lemma StrippedRestored(j: Json, sites: seq<Site>)
    requires Arranged(j, sites)
    requires forall s <- sites :: Stripped(s) ==> Restorable(j, s)
    ensures StripThenPatch(j, sites) == Apply(PatchKept(j, Kept(sites)), Marks(sites))
  {
    var S, K := StripEdits(sites), Kept(sites);
    var base := PatchKept(j, K);
    forall k <- K, e <- S ensures Compatible(k.path, e) {
      KeptCompatible(j, sites, k, e);
    }
    AllKeptPastEdits(j, K, S);
    forall s <- sites | Stripped(s)
      ensures s.filed == s.path && Located(base, s) && Restorable(base, s)
      ensures Lookup(Apply(base, S), s.path).Some?
    {
      KeptSameAt(j, sites, s);
      SameAtTruth(j, base, s);
      StripKeepsNode(base, sites, s);
    }
    PatchAllIsApply(Apply(base, S), sites);
    Regroup(base, sites);
    NetsAreMarks(base, sites);
  }

  /** Reads below a stripped site that only the strip itself can change. */
  lemma {:induction false} FinalRead(j: Json, sites: seq<Site>, s: Site, x: Path)
    requires Arranged(j, sites) && s in sites && Stripped(s) && StepOf(s, x)
    requires s.filed == s.path ==> x[0] != ATTRS && x[0] != VALUE
    ensures Lookup(StripThenPatch(j, sites), s.path + x) == Lookup(Apply(j, StripEdits(sites)), s.path + x)
  {
    forall k <- Kept(sites) ensures Diverge(k.path + [ATTRS], s.path + x) {
      KeptMissesSite(j, sites, s, x, k);
    }
    PatchKeptFrame(Apply(j, StripEdits(sites)), Kept(sites), s.path + x);
    forall r <- Records(sites)
      ensures Diverge(r.path + [ATTRS], s.path + x) && Diverge(r.path + [VALUE], s.path + x)
    {
      RecordMissesSite(j, sites, s, x, r, ATTRS);
      RecordMissesSite(j, sites, s, x, r, VALUE);
    }
    PatchAllFrame(PatchKept(Apply(j, StripEdits(sites)), Kept(sites)), Records(sites), s.path + x);
  }

  lemma {:induction false} RecordMissesSite(j: Json, sites: seq<Site>, s: Site, x: Path, r: SecretRecord, a: Step)
    requires Arranged(j, sites) && s in sites && StepOf(s, x)
    requires s.filed == s.path ==> x[0] != ATTRS && x[0] != VALUE
    requires r in Records(sites) && a in {ATTRS, VALUE}
    ensures Diverge(r.path + [a], s.path + x)
  {
    var t := RecordOrigin(sites, r);
    ApartOrSame(sites, s, t);
    if t.filed != t.path {
      assert Clear(t, s);
      ClearWrites(t, s, [a], x);
    } else if t == s {
      DivergeUnder(s.path, [a], x);
    } else {
      ApartBelow(t, s, a, x);
    }
  }

  /** What the strip leaves below a stripped site. */
  lemma StripRead(j: Json, sites: seq<Site>, s: Site, x: Path)
    requires Arranged(j, sites) && s in sites && Stripped(s) && StepOf(s, x)
    ensures Lookup(Apply(j, StripEdits(sites)), s.path + x) ==
            if s.kind == Variable then (if x == [ATTRS] then Some(UNSET_REFERENCE) else None)
            else Child(Placeholder(s.kind), x[0])
  {
    var k, m, after := StripAround(j, sites, s);
    OwnStrip(k, s);
    LookupSplit(m, s.path, x);
    assert Lookup(Lookup(m, s.path).value, x) == Child(Lookup(m, s.path).value, x[0]) by { assert x[1..] == []; }
    StripMisses(after, s, x);
    ApplyFrame(m, StripEdits(after), s.path + x);
  }

  lemma StripMisses(others: seq<Site>, s: Site, x: Path)
    requires forall t <- others :: Apart(t, s)
    requires StepOf(s, x)
    ensures Avoid(StripEdits(others), s.path + x)
  {
    if s.kind == Variable {
      OthersAvoid(StripEdits(others), others, s, x);
    } else {
      OthersAvoid(StripEdits(others), others, s, []);
      forall e <- StripEdits(others) ensures Diverge(e.path, s.path + x) {
        DivergeExtend(e.path, s.path + [], [], x);
        assert e.path + [] == e.path && s.path + [] + x == s.path + x;
      }
    }
  }

  /** What the intended result holds below a stripped site. */
  lemma MarkedRead(j: Json, sites: seq<Site>, s: Site, x: Path)
    requires Arranged(j, sites) && s in sites && Stripped(s) && StepOf(s, x)
    ensures Lookup(Marked(j, sites), s.path + x) == if x == [ATTRS] then Some(MODIFIED) else Lookup(j, s.path + x)
  {
    var base := Apply(j, KeptMarks(sites));
    forall e | e in KeptMarks(sites) ensures Diverge(e.path, s.path + x) {
      var t := KeptMarkOrigin(sites, e);
      ApartOrSame(sites, s, t);
      ApartBelow(t, s, ATTRS, x);
    }
    ApplyFrame(j, KeptMarks(sites), s.path + x);
    KeptMarksSameAt(j, KeptMarks(sites), sites, s);
    SameAtTruth(j, base, s);
    MarksRead(base, sites, s, x);
  }

  lemma MarksRead(base: Json, sites: seq<Site>, s: Site, x: Path)
    requires AllApart(sites) && s in sites && Stripped(s) && Located(base, s) && StepOf(s, x)
    ensures Lookup(Apply(base, Marks(sites)), s.path + x)
         == if x == [ATTRS] then Some(MODIFIED) else Lookup(base, s.path + x)
  {
    var k, m, after := MarksAround(base, sites, s, x);
    OthersMiss(Marks(after), after, s, x);
    ApplyFrame(m, Marks(after), s.path + x);
    AssignedRead(k, s.path, MODIFIED, x);
  }

  lemma AssignedRead(k: Json, p: Path, v: Json, x: Path)
    requires Lookup(k, p).Some? && Lookup(k, p).value.Obj? && |x| == 1
    ensures Lookup(Write(k, p + [ATTRS], Some(v)), p + x) == if x == [ATTRS] then Some(v) else Lookup(k, p + x)
  {
    var c := Lookup(k, p).value;
    WriteSplit(k, p, [ATTRS], Some(v));
    ReadBack(k, p, PutChild(c, ATTRS, Some(v)));
    LookupSplit(Write(k, p + [ATTRS], Some(v)), p, x);
    LookupSplit(k, p, x);
    assert x == [x[0]];
    OneStep(c, x[0]);
    OneStep(PutChild(c, ATTRS, Some(v)), x[0]);
  }

  lemma MarksAround(base: Json, sites: seq<Site>, s: Site, x: Path) returns (k: Json, m: Json, after: seq<Site>)
    requires AllApart(sites) && s in sites && Stripped(s) && Located(base, s) && StepOf(s, x)
    ensures Located(k, s) && Lookup(k, s.path + x) == Lookup(base, s.path + x)
    ensures m == Write(k, s.path + [ATTRS], Some(MODIFIED))
    ensures Apply(base, Marks(sites)) == Apply(m, Marks(after))
    ensures forall t <- after :: Apart(t, s)
  {
    var i :| 0 <= i < |sites| && sites[i] == s;
    var before := sites[..i];
    after := sites[i+1..];
    assert sites == before + ([s] + after);
    MarksSplit(before, [s] + after);
    MarksSplit([s], after);
    assert Marks([s]) == SiteMark(s) by { assert [s][1..] == []; }
    ApplySplit(base, Marks(before), SiteMark(s) + Marks(after));
    k := Apply(base, Marks(before));
    ApplySplit(k, SiteMark(s), Marks(after));
    EditsSameAt(base, Marks(before), before, s);
    SameAtTruth(base, k, s);
    OthersMiss(Marks(before), before, s, x);
    ApplyFrame(base, Marks(before), s.path + x);
    m := Write(k, s.path + [ATTRS], Some(MODIFIED));
    assert Apply(k, SiteMark(s)) == m by { assert SiteMark(s)[1..] == []; }
  }

  lemma OthersMiss(edits: seq<Edit>, others: seq<Site>, s: Site, x: Path)
    requires forall e <- edits :: e in Marks(others)
    requires forall t <- others :: Apart(t, s)
    requires StepOf(s, x)
    ensures Avoid(edits, s.path + x)
  {
    forall e <- edits ensures Diverge(e.path, s.path + x) {
      var t := MarkOrigin(others, e);
      ApartBelow(t, s, ATTRS, x);
    }
  }

  lemma {:induction false} MarkOrigin(sites: seq<Site>, e: Edit) returns (s: Site)
    requires e in Marks(sites)
    ensures s in sites && Stripped(s) && e == Edit(s.path + [ATTRS], Some(MODIFIED))
  {
    if e in SiteMark(sites[0]) {
      s := sites[0];
    } else {
      s := MarkOrigin(sites[1..], e);
    }
  }

  lemma {:induction false} MarksSplit(a: seq<Site>, b: seq<Site>)
    ensures Marks(a + b) == Marks(a) + Marks(b)
  {
    if a == [] {
      assert a + b == b;
    } else {
      assert (a + b)[1..] == a[1..] + b;
      MarksSplit(a[1..], b);
    }
  }

  /** One secret that is not restorable spoils the round trip. */
  lemma LostWhenNotRestorable(j: Json, sites: seq<Site>, s: Site)
    requires Arranged(j, sites) && s in sites && Stripped(s) && !Restorable(j, s)
    ensures StripThenPatch(j, sites) != Marked(j, sites)
  {
    if s.filed != s.path {
      LostWhenMisfiled(j, sites, s);
    } else if !s.value.Some? || s.value != Get(Node(j, s.path), "value") {
      MarkedRead(j, sites, s, [VALUE]);
      LookupSplit(j, s.path, [VALUE]);
      OneStep(Lookup(j, s.path).value, VALUE);
      PatchedValue(j, sites, s);
    } else {
      var k :| k in Node(j, s.path).fields && k !in {"value", "attrs"};
      LostMember(j, sites, s, k);
    }
  }

  lemma LostWhenMisfiled(j: Json, sites: seq<Site>, s: Site)
    requires Arranged(j, sites) && s in sites && Stripped(s) && s.filed != s.path
    ensures StripThenPatch(j, sites) != Marked(j, sites)
  {
    FinalRead(j, sites, s, [ATTRS]);
    StripRead(j, sites, s, [ATTRS]);
    MarkedRead(j, sites, s, [ATTRS]);
    assert UNMODIFIED.fields["is_secret_modified"] != MODIFIED.fields["is_secret_modified"];
    assert UNSET_REFERENCE.fields["is_secret_modified"] != MODIFIED.fields["is_secret_modified"];
  }

  lemma {:induction false} LostMember(j: Json, sites: seq<Site>, s: Site, k: string)
    requires Arranged(j, sites) && s in sites && Stripped(s) && s.filed == s.path && s.kind != Variable
    requires k in Lookup(j, s.path).value.fields && k !in {"value", "attrs"}
    ensures StripThenPatch(j, sites) != Marked(j, sites)
  {
    FinalRead(j, sites, s, [Key(k)]);
    StripRead(j, sites, s, [Key(k)]);
    MarkedRead(j, sites, s, [Key(k)]);
    LookupSplit(j, s.path, [Key(k)]);
    OneStep(Lookup(j, s.path).value, Key(k));
  }

  /** A secret filed at its own node is back at `value` there, whatever else was patched. */
  lemma PatchedValue(j: Json, sites: seq<Site>, s: Site)
    requires Arranged(j, sites) && s in sites && Stripped(s) && s.filed == s.path
    ensures Lookup(StripThenPatch(j, sites), s.path + [VALUE]) == Some(OrNull(s.value))
    ensures Lookup(StripThenPatch(j, sites), s.path + [ATTRS]) == Some(MODIFIED)
  {
    var r := SecretRecord(s.filed, OrNull(s.value), s.name);
    var k, after := PatchAround(j, sites, s, r);
    OwnPatch(k, r);
    var m := PatchOne(k, r);
    forall a <- {ATTRS, VALUE} ensures Lookup(PatchAll(m, Records(after)), s.path + [a]) == Lookup(m, s.path + [a]) {
      forall u <- Records(after)
        ensures Diverge(u.path + [ATTRS], s.path + [a]) && Diverge(u.path + [VALUE], s.path + [a])
      {
        var t := RecordOrigin(after, u);
        RecordsApart(j, sites, s, t, a, ATTRS);
        RecordsApart(j, sites, s, t, a, VALUE);
      }
      PatchAllFrame(m, Records(after), s.path + [a]);
    }
  }

  lemma OwnPatch(k: Json, r: SecretRecord)
    requires Lookup(k, r.path).Some? && Lookup(k, r.path).value.Obj?
    ensures Lookup(PatchOne(k, r), r.path + [VALUE]) == Some(r.secret)
    ensures Lookup(PatchOne(k, r), r.path + [ATTRS]) == Some(MODIFIED)
  {
    TwoKeys(k, r.path, ATTRS, Some(MODIFIED), VALUE, Some(r.secret));
    var c := PutChild(PutChild(Lookup(k, r.path).value, ATTRS, Some(MODIFIED)), VALUE, Some(r.secret));
    ReadBack(k, r.path, c);
    LookupSplit(PatchOne(k, r), r.path, [VALUE]);
    LookupSplit(PatchOne(k, r), r.path, [ATTRS]);
    assert Lookup(c, [VALUE]) == Child(c, VALUE) && Lookup(c, [ATTRS]) == Child(c, ATTRS);
  }

  /** The patch, seen from one record. */
  lemma PatchAround(j: Json, sites: seq<Site>, s: Site, r: SecretRecord) returns (k: Json, after: seq<Site>)
    requires Arranged(j, sites) && s in sites && Stripped(s)
    requires r == SecretRecord(s.filed, OrNull(s.value), s.name)
    ensures Lookup(k, s.path).Some? && Lookup(k, s.path).value.Obj?
    ensures StripThenPatch(j, sites) == PatchAll(PatchOne(k, r), Records(after))
    ensures forall t <- after :: t in sites && Apart(t, s)
  {
    var i :| 0 <= i < |sites| && sites[i] == s;
    var before := sites[..i];
    after := sites[i+1..];
    assert sites == before + ([s] + after);
    SitesSplit(before, [s] + after);
    SitesSplit([s], after);
    assert Records([s]) == [r] by { assert [s][1..] == []; }
    var start := PatchKept(Apply(j, StripEdits(sites)), Kept(sites));
    PatchAllSplit(start, Records(before), [r] + Records(after));
    k := PatchAll(start, Records(before));
    PatchAllSplit(k, [r], Records(after));
    assert PatchAll(k, [r]) == PatchOne(k, r) by { assert [r][1..] == []; }
    StripKeepsNode(j, sites, s);
    PatchedNode(j, sites, Apply(j, StripEdits(sites)), Kept(sites), s);
    RecordsKeepNode(j, sites, start, Records(before), before, s);
  }

  lemma RecordsApart(j: Json, sites: seq<Site>, s: Site, t: Site, a: Step, b: Step)
    requires Arranged(j, sites) && s in sites && t in sites && Apart(t, s)
    requires a in {ATTRS, VALUE} && b in {ATTRS, VALUE}
    ensures Diverge(t.filed + [b], s.path + [a])
  {
    if t.filed != t.path {
      assert Clear(t, s);
      ClearWrites(t, s, [b], [a]);
    } else {
      ApartWrites(t, s, [b], [a]);
    }
  }

  lemma FiledApart(j: Json, sites: seq<Site>, s: Site, t: Site)
    requires Arranged(j, sites) && s in sites && t in sites && Apart(t, s)
    ensures ApartPaths(t.filed, s.path)
  {
    if t.filed != t.path {
      assert Clear(t, s);
    }
  }

  lemma {:induction false} RecordsKeepNode(j: Json, sites: seq<Site>, k: Json, records: seq<SecretRecord>,
                                           others: seq<Site>, s: Site)
    requires Arranged(j, sites) && s in sites
    requires forall r <- records :: r in Records(others)
    requires forall t <- others :: t in sites && Apart(t, s)
    requires Lookup(k, s.path).Some? && Lookup(k, s.path).value.Obj?
    ensures Lookup(PatchAll(k, records), s.path).Some? && Lookup(PatchAll(k, records), s.path).value.Obj?
    decreases |records|
  {
    if records != [] {
      var t := RecordOrigin(others, records[0]);
      FiledApart(j, sites, s, t);
      PatchKeepsNode(k, records[0], s.path);
      RecordsKeepNode(j, sites, PatchOne(k, records[0]), records[1..], others, s);
    }
  }

  lemma {:induction false} PatchedNode(j: Json, sites: seq<Site>, k: Json, kept: seq<KeptRecord>, s: Site)
    requires Arranged(j, sites) && s in sites && Stripped(s)
    requires forall r <- kept :: r in Kept(sites)
    requires Lookup(k, s.path).Some? && Lookup(k, s.path).value.Obj?
    ensures Lookup(PatchKept(k, kept), s.path).Some? && Lookup(PatchKept(k, kept), s.path).value.Obj?
    decreases |kept|
  {
    if kept != [] {
      var t := KeptOrigin(sites, kept[0]);
      ApartOrSame(sites, t, s);
      FiledApart(j, sites, s, t);
      WriteKeepsNode(k, t.filed, ATTRS, Some(UNMODIFIED), s.path);
      PatchedNode(j, sites, PatchKeptOne(k, kept[0]), kept[1..], s);
    }
  }

  // ----- secrets that stay in the tree

  lemma {:induction false} KeptMarkOrigin(sites: seq<Site>, e: Edit) returns (s: Site)
    requires e in KeptMarks(sites)
    ensures s in sites && KeptInPlace(s) && e == Edit(s.path + [ATTRS], Some(UNMODIFIED))
  {
    if KeptInPlace(sites[0]) && e == Edit(sites[0].path + [ATTRS], Some(UNMODIFIED)) {
      s := sites[0];
    } else {
      s := KeptMarkOrigin(sites[1..], e);
    }
  }

  lemma {:induction false} KeptMarksSameAt(j: Json, edits: seq<Edit>, sites: seq<Site>, s: Site)
    requires AllApart(sites) && s in sites && Stripped(s) && Located(j, s)
    requires forall e | e in edits :: e in KeptMarks(sites)
    ensures SameAt(j, Apply(j, edits), s)
    decreases |edits|
  {
    if edits != [] {
      var e := edits[0];
      var t := KeptMarkOrigin(sites, e);
      ApartOrSame(sites, s, t);
      OneWriteSameAt(j, e, t, s);
      var k := Write(j, e.path, e.value);
      SameAtTruth(j, k, s);
      KeptMarksSameAt(k, edits[1..], sites, s);
    }
  }

  /** A node away from everything one site writes is the same after its mark. */
  lemma MarkMisses(j: Json, t: Site, q: Path)
    requires Diverge(t.path, q)
    ensures Lookup(Write(j, t.path + [ATTRS], Some(UNMODIFIED)), q) == Lookup(j, q)
  {
    DivergeExtend(t.path, q, [ATTRS], []);
    assert q + [] == q;
    WriteFrame(j, t.path + [ATTRS], Some(UNMODIFIED), q);
  }

  /** The pass over kept secrets does at one site what the mark does, when the site fits. */
  lemma OneKept(j: Json, s: Site)
    requires Located(j, s) && KeptFits(j, s)
    ensures PatchKeptOne(j, KeptRecord(s.filed, OrNull(s.value))) == Write(j, s.path + [ATTRS], Some(UNMODIFIED))
  {
    if s.filed != s.path {
      WriteSame(j, s.path + [ATTRS]);
      assert Write(j, s.path + [ATTRS], Some(UNMODIFIED)) == j;
      if Lookup(j, s.filed).Some? {
        LookupSplit(j, s.filed, [ATTRS]);
        OneStep(Node(j, s.filed), ATTRS);
        if Node(j, s.filed).Obj? {
          assert Lookup(j, s.filed + [ATTRS]) == Get(Node(j, s.filed), "attrs") == Some(UNMODIFIED);
          WriteSame(j, s.filed + [ATTRS]);
          assert Write(j, s.filed + [ATTRS], Some(UNMODIFIED)) == j;
        } else {
          NoMember(j, s.filed);
        }
      }
    }
  }

  /** A member of something that is no object cannot be assigned. */
  lemma NoMember(j: Json, p: Path)
    requires Lookup(j, p).Some? && !Lookup(j, p).value.Obj?
    ensures Write(j, p + [ATTRS], Some(UNMODIFIED)) == j
  {
    WriteSplit(j, p, [ATTRS], Some(UNMODIFIED));
    WriteSame(j, p);
  }

  /** Marking one kept secret leaves what a later one fits by. */
  lemma OneKeptLeaves(j: Json, t: Site, s: Site)
    requires Apart(t, s) && Clear(s, t) && Located(j, s) && KeptFits(j, s)
    ensures var k := Write(j, t.path + [ATTRS], Some(UNMODIFIED)); Located(k, s) && KeptFits(k, s)
  {
    var k := Write(j, t.path + [ATTRS], Some(UNMODIFIED));
    OneWriteSameAt(j, Edit(t.path + [ATTRS], Some(UNMODIFIED)), t, s);
    SameAtTruth(j, k, s);
    if s.filed != s.path {
      ApartWrites(t, s, [ATTRS], [ATTRS]);
      WriteFrame(j, t.path + [ATTRS], Some(UNMODIFIED), s.path + [ATTRS]);
      DivergeSymmetric(s.filed, t.path);
      MarkMisses(j, t, s.filed);
    }
  }

  lemma {:induction false} KeptAreMarks(j: Json, sites: seq<Site>)
    requires AllApart(sites) && forall s, t | s in sites && t in sites :: Clear(s, t)
    requires forall s | s in sites && KeptInPlace(s) :: Located(j, s) && KeptFits(j, s)
    ensures PatchKept(j, Kept(sites)) == Apply(j, KeptMarks(sites))
    decreases |sites|
  {
    if sites != [] {
      var s, rest := sites[0], sites[1..];
      AllApartTail(sites);
      if KeptInPlace(s) {
        var r, e := KeptRecord(s.filed, OrNull(s.value)), Edit(s.path + [ATTRS], Some(UNMODIFIED));
        OneKept(j, s);
        var k := PatchKeptOne(j, r);
        forall t | t in rest && KeptInPlace(t) ensures Located(k, t) && KeptFits(k, t) {
          OneKeptLeaves(j, s, t);
        }
        KeptAreMarks(k, rest);
        assert Kept(sites)[0] == r && Kept(sites)[1..] == Kept(rest);
        assert KeptMarks(sites)[0] == e && KeptMarks(sites)[1..] == KeptMarks(rest);
        assert PatchKept(j, Kept(sites)) == PatchKept(k, Kept(rest));
        assert Apply(j, KeptMarks(sites)) == Apply(k, KeptMarks(rest));
      } else {
        assert Kept(sites) == Kept(rest) && KeptMarks(sites) == KeptMarks(rest);
        KeptAreMarks(j, rest);
      }
    }
  }

  lemma KeptMarkedRight(j: Json, sites: seq<Site>)
    requires Arranged(j, sites)
    requires forall s | s in sites && KeptInPlace(s) :: KeptFits(j, s)
    ensures PatchKept(j, Kept(sites)) == Apply(j, KeptMarks(sites))
  {
    KeptAreMarks(j, sites);
  }

  // ----- a kept secret that does not fit

  /** No write of strip or patch reaches `attrs` of a kept secret filed elsewhere. */
  lemma KeptAttrsUnread(j: Json, sites: seq<Site>, s: Site)
    requires Arranged(j, sites) && s in sites && KeptInPlace(s) && s.filed != s.path
    ensures Lookup(StripThenPatch(j, sites), s.path + [ATTRS]) == Lookup(j, s.path + [ATTRS])
  {
    var q := s.path + [ATTRS];
    forall e | e in StripEdits(sites) ensures Diverge(e.path, q) {
      var t := EditsOfSites(sites, e);
      var y := OfSiteSuffix(e, t);
      ApartOrSame(sites, t, s);
      ApartWrites(t, s, y, [ATTRS]);
    }
    ApplyFrame(j, StripEdits(sites), q);
    forall t, a | t in sites && a in {ATTRS, VALUE} ensures Diverge(t.filed + [a], q) {
      FiledMissesAttrs(sites, s, t, a);
    }
    forall k | k in Kept(sites) ensures Diverge(k.path + [ATTRS], q) {
      var t := KeptOrigin(sites, k);
    }
    PatchKeptFrame(Apply(j, StripEdits(sites)), Kept(sites), q);
    forall r | r in Records(sites) ensures Diverge(r.path + [ATTRS], q) && Diverge(r.path + [VALUE], q) {
      var t := RecordOrigin(sites, r);
    }
    PatchAllFrame(PatchKept(Apply(j, StripEdits(sites)), Kept(sites)), Records(sites), q);
  }

  lemma FiledMissesAttrs(sites: seq<Site>, s: Site, t: Site, a: Step)
    requires AllApart(sites) && s in sites && t in sites && Clear(t, s) && s.filed != s.path && a in {ATTRS, VALUE}
    ensures Diverge(t.filed + [a], s.path + [ATTRS])
  {
    if t.filed != t.path {
      ClearWrites(t, s, [a], [ATTRS]);
    } else {
      ApartOrSame(sites, t, s);
      ApartWrites(t, s, [a], [ATTRS]);
    }
  }

  lemma KeptMarksAt(j: Json, sites: seq<Site>, s: Site)
    requires Arranged(j, sites) && s in sites && KeptInPlace(s)
    ensures Lookup(Marked(j, sites), s.path + [ATTRS]) == Some(UNMODIFIED)
  {
    var q := s.path + [ATTRS];
    var i :| 0 <= i < |sites| && sites[i] == s;
    var before, after := sites[..i], sites[i+1..];
    assert sites == before + ([s] + after);
    KeptMarksSplit(before, [s] + after);
    KeptMarksSplit([s], after);
    assert [s][1..] == [] && KeptMarks([s]) == [Edit(q, Some(UNMODIFIED))];
    var k := Apply(j, KeptMarks(before));
    ApplySplit(j, KeptMarks(before), [Edit(q, Some(UNMODIFIED))] + KeptMarks(after));
    ApplySplit(k, [Edit(q, Some(UNMODIFIED))], KeptMarks(after));
    ApplyOne(k, Edit(q, Some(UNMODIFIED)));
    KeptStays(j, KeptMarks(before), before, s);
    AssignedRead(k, s.path, UNMODIFIED, [ATTRS]);
    var m := Write(k, q, Some(UNMODIFIED));
    forall e | e in KeptMarks(after) ensures Diverge(e.path, q) {
      var t := KeptMarkOrigin(after, e);
      ApartWrites(t, s, [ATTRS], [ATTRS]);
    }
    ApplyFrame(m, KeptMarks(after), q);
    forall e | e in Marks(sites) ensures Diverge(e.path, q) {
      var t := MarkOrigin(sites, e);
      ApartOrSame(sites, t, s);
      ApartWrites(t, s, [ATTRS], [ATTRS]);
    }
    ApplyFrame(Apply(j, KeptMarks(sites)), Marks(sites), q);
  }

  lemma ApplyOne(j: Json, e: Edit)
    ensures Apply(j, [e]) == Write(j, e.path, e.value)
  {
    assert [e][1..] == [];
  }

  /** The node of a kept secret stays an object while other secrets are marked. */
  lemma {:induction false} KeptStays(j: Json, edits: seq<Edit>, others: seq<Site>, s: Site)
    requires forall e | e in edits :: e in KeptMarks(others)
    requires forall t | t in others :: Apart(t, s)
    requires Located(j, s)
    ensures Located(Apply(j, edits), s)
    decreases |edits|
  {
    if edits != [] {
      var t := KeptMarkOrigin(others, edits[0]);
      OneWriteSameAt(j, edits[0], t, s);
      SameAtTruth(j, Write(j, edits[0].path, edits[0].value), s);
      KeptStays(Write(j, edits[0].path, edits[0].value), edits[1..], others, s);
    }
  }

  lemma {:induction false} KeptMarksSplit(a: seq<Site>, b: seq<Site>)
    ensures KeptMarks(a + b) == KeptMarks(a) + KeptMarks(b)
  {
    hide KeptInPlace;
    if a == [] {
      assert a + b == b;
    } else {
      assert (a + b)[1..] == a[1..] + b;
      KeptMarksSplit(a[1..], b);
    }
  }

  /** The intended result leaves every file path alone that is no site's own. */
  lemma MarkedMissesFile(j: Json, sites: seq<Site>, s: Site)
    requires Arranged(j, sites) && s in sites && s.filed != s.path
    ensures Lookup(Marked(j, sites), s.filed + [ATTRS]) == Lookup(j, s.filed + [ATTRS])
  {
    var q := s.filed + [ATTRS];
    forall t | t in sites ensures Diverge(t.path + [ATTRS], q) {
      assert Clear(s, t);
      ClearWrites(s, t, [ATTRS], [ATTRS]);
      DivergeSymmetric(s.filed + [ATTRS], t.path + [ATTRS]);
    }
    forall e | e in KeptMarks(sites) ensures Diverge(e.path, q) {
      var t := KeptMarkOrigin(sites, e);
    }
    ApplyFrame(j, KeptMarks(sites), q);
    forall e | e in Marks(sites) ensures Diverge(e.path, q) {
      var t := MarkOrigin(sites, e);
    }
    ApplyFrame(Apply(j, KeptMarks(sites)), Marks(sites), q);
  }

  lemma FiledApartOrSame(sites: seq<Site>, s: Site, t: Site)
    requires AllFiledApart(sites) && s in sites && t in sites
    ensures s == t || ApartPaths(s.filed, t.filed)
  {
    var i :| 0 <= i < |sites| && sites[i] == s;
    var k :| 0 <= k < |sites| && sites[k] == t;
  }

  lemma {:induction false} RecordsAreApart(sites: seq<Site>)
    requires AllFiledApart(sites)
    ensures PairwiseApart(Records(sites))
  {
    if sites != [] {
      var s, rest := sites[0], sites[1..];
      FiledApartTail(sites);
      RecordsAreApart(rest);
      if Stripped(s) {
        var r := SecretRecord(s.filed, OrNull(s.value), s.name);
        var tail := Records(rest);
        assert Records(sites) == [r] + tail;
        forall k | 0 <= k < |tail| ensures ApartPaths(r.path, tail[k].path) {
          var t := RecordOrigin(rest, tail[k]);
        }
      } else {
        assert Records(sites) == Records(rest);
      }
    }
  }

  lemma FiledApartTail(sites: seq<Site>)
    requires AllFiledApart(sites) && sites != []
    ensures AllFiledApart(sites[1..])
    ensures forall t | t in sites[1..] :: ApartPaths(sites[0].filed, t.filed)
  {
    var rest := sites[1..];
    forall i, k | 0 <= i < |rest| && 0 <= k < |rest| && i != k ensures ApartPaths(rest[i].filed, rest[k].filed) {
      assert rest[i] == sites[i + 1] && rest[k] == sites[k + 1];
    }
    forall t | t in rest ensures ApartPaths(sites[0].filed, t.filed) {
      var i :| 0 <= i < |rest| && rest[i] == t;
      assert sites[i + 1] == t;
    }
  }

  lemma {:induction false} RecordExists(sites: seq<Site>, s: Site)
    requires s in sites
    ensures Stripped(s) ==> SecretRecord(s.filed, OrNull(s.value), s.name) in Records(sites)
    ensures KeptInPlace(s) ==> KeptRecord(s.filed, OrNull(s.value)) in Kept(sites)
  {
    if s != sites[0] {
      RecordExists(sites[1..], s);
    }
  }

  lemma {:induction false} KeptAreApart(sites: seq<Site>)
    requires AllFiledApart(sites)
    ensures KeptApart(Kept(sites))
  {
    if sites != [] {
      var s, rest := sites[0], sites[1..];
      FiledApartTail(sites);
      KeptAreApart(rest);
      if KeptInPlace(s) {
        var tail := Kept(rest);
        assert Kept(sites) == [KeptRecord(s.filed, OrNull(s.value))] + tail;
        forall k | 0 <= k < |tail| ensures ApartPaths(s.filed, tail[k].path) {
          var t := KeptOrigin(rest, tail[k]);
        }
      } else {
        assert Kept(sites) == Kept(rest);
      }
    }
  }

  lemma {:induction false} KeptFileStays(k: Json, kept: seq<KeptRecord>, s: Site)
    requires forall r | r in kept :: ApartPaths(r.path, s.filed)
    requires Node(k, s.filed).Obj?
    ensures Node(PatchKept(k, kept), s.filed).Obj?
    decreases |kept|
  {
    if kept != [] {
      assert kept[0] in kept;
      WriteKeepsNode(k, kept[0].path, ATTRS, Some(UNMODIFIED), s.filed);
      KeptFileStays(PatchKeptOne(k, kept[0]), kept[1..], s);
    }
  }

  /** An object at the file path of a kept secret is marked in its place. */
  lemma KeptFileMarked(j: Json, sites: seq<Site>, s: Site)
    requires Arranged(j, sites) && s in sites && KeptInPlace(s) && s.filed != s.path && Node(j, s.filed).Obj?
    ensures Lookup(StripThenPatch(j, sites), s.filed + [ATTRS]) == Some(UNMODIFIED)
  {
    var r := KeptRecord(s.filed, OrNull(s.value));
    var t := Apply(j, StripEdits(sites));
    StripMissesFile(j, sites, s);
    var k, before, after := KeptAround(t, sites, s, r);
    forall u | u in Kept(before) ensures ApartPaths(u.path, s.filed) {
      var o := KeptOrigin(before, u);
    }
    KeptFileStays(t, Kept(before), s);
    AssignedRead(k, s.filed, UNMODIFIED, [ATTRS]);
    forall u | u in Kept(after) ensures Diverge(u.path + [ATTRS], s.filed + [ATTRS]) {
      var o := KeptOrigin(after, u);
      ApartPathsWrites(o.filed, s.filed, ATTRS, ATTRS);
    }
    PatchKeptFrame(PatchKeptOne(k, r), Kept(after), s.filed + [ATTRS]);
    RecordsMissFile(j, sites, s, PatchKept(t, Kept(sites)));
  }

  /** The pass over kept secrets, seen from one of them. */
  lemma KeptAround(t: Json, sites: seq<Site>, s: Site, r: KeptRecord)
    returns (k: Json, before: seq<Site>, after: seq<Site>)
    requires AllFiledApart(sites) && s in sites && KeptInPlace(s) && r == KeptRecord(s.filed, OrNull(s.value))
    ensures k == PatchKept(t, Kept(before)) && PatchKept(t, Kept(sites)) == PatchKept(PatchKeptOne(k, r), Kept(after))
    ensures forall u | u in before + after :: ApartPaths(u.filed, s.filed)
  {
    var i :| 0 <= i < |sites| && sites[i] == s;
    before, after := sites[..i], sites[i+1..];
    k := PatchKept(t, Kept(before));
    forall u | u in before + after ensures ApartPaths(u.filed, s.filed) {
      var n :| 0 <= n < |before + after| && (before + after)[n] == u;
      assert u == sites[if n < i then n else n + 1];
    }
    assert Kept([s]) == [r] by { assert [s][1..] == []; }
    assert PatchKept(k, [r]) == PatchKeptOne(k, r) by { assert [r][1..] == []; }
    hide ApartPaths, KeptInPlace, Kept, PatchKept, AllFiledApart;
    assert sites == before + ([s] + after);
    KeptSplit(before, [s] + after);
    KeptSplit([s], after);
    PatchKeptJoin(t, Kept(before), [r] + Kept(after));
    PatchKeptJoin(k, [r], Kept(after));
  }

  lemma StripMissesFile(j: Json, sites: seq<Site>, s: Site)
    requires Arranged(j, sites) && s in sites && s.filed != s.path
    ensures Lookup(Apply(j, StripEdits(sites)), s.filed) == Lookup(j, s.filed)
  {
    StripAvoidsFile(sites, s);
    ApplyFrame(j, StripEdits(sites), s.filed);
  }

  lemma StripAvoidsFile(sites: seq<Site>, s: Site)
    requires s in sites && s.filed != s.path && forall t <- sites :: Clear(s, t)
    ensures Avoid(StripEdits(sites), s.filed)
  {
    forall e | e in StripEdits(sites) ensures Diverge(e.path, s.filed) {
      var t := EditsOfSites(sites, e);
      var y := OfSiteSuffix(e, t);
      assert Clear(s, t);
      ClearWrites(s, t, [], y);
      assert s.filed + [] == s.filed;
      DivergeSymmetric(s.filed, e.path);
    }
  }

  lemma RecordsMissFile(j: Json, sites: seq<Site>, s: Site, k: Json)
    requires Arranged(j, sites) && s in sites && KeptInPlace(s) && s.filed != s.path
    ensures Lookup(PatchAll(k, Records(sites)), s.filed + [ATTRS]) == Lookup(k, s.filed + [ATTRS])
  {
    var q := s.filed + [ATTRS];
    forall r | r in Records(sites) ensures Diverge(r.path + [ATTRS], q) && Diverge(r.path + [VALUE], q) {
      var t := RecordOrigin(sites, r);
      FiledApartOrSame(sites, t, s);
      ApartPathsWrites(t.filed, s.filed, ATTRS, ATTRS);
      ApartPathsWrites(t.filed, s.filed, VALUE, ATTRS);
    }
    PatchAllFrame(k, Records(sites), q);
  }

  lemma {:induction false} PatchKeptJoin(j: Json, a: seq<KeptRecord>, b: seq<KeptRecord>)
    ensures PatchKept(j, a + b) == PatchKept(PatchKept(j, a), b)
    decreases |a|
  {
    if a == [] {
      assert a + b == b;
    } else {
      assert (a + b)[1..] == a[1..] + b;
      PatchKeptJoin(PatchKeptOne(j, a[0]), a[1..], b);
    }
  }

  /** One kept secret that does not fit spoils the result: it is not marked, or something else is. */
  lemma MismarkedWhenMisfit(j: Json, sites: seq<Site>, s: Site)
    requires Arranged(j, sites) && s in sites && KeptInPlace(s) && !KeptFits(j, s)
    ensures StripThenPatch(j, sites) != Marked(j, sites)
  {
    if Lookup(j, s.path + [ATTRS]) != Some(UNMODIFIED) {
      KeptAttrsUnread(j, sites, s);
      KeptMarksAt(j, sites, s);
    } else {
      KeptFileMarked(j, sites, s);
      MarkedMissesFile(j, sites, s);
      LookupSplit(j, s.filed, [ATTRS]);
      OneStep(Node(j, s.filed), ATTRS);
    }
  }

  /** What every secret of the strip must meet for the round trip to give the intended result. */
  predicate Fitting(j: Json, s: Site) {
    (Stripped(s) ==> Restorable(j, s)) && (KeptInPlace(s) ==> KeptFits(j, s))
  }

  /** Fitting is a matter of the secret's own node and the node at its file path. */
  lemma {:induction false} FittingSame(j: Json, k: Json, s: Site)
    requires Lookup(k, s.path) == Lookup(j, s.path) && Lookup(k, s.filed) == Lookup(j, s.filed)
    ensures Fitting(k, s) == Fitting(j, s) && Truthful(k, s) == Truthful(j, s) && Located(k, s) == Located(j, s)
  {
    LookupSplit(j, s.path, [ATTRS]);
    LookupSplit(k, s.path, [ATTRS]);
    hide Lookup, Stripped, KeptInPlace;
  }

  /**
   The exact law: a strip, an echo and a patch give back every value and every other node, with
   only `attrs` of secrets set, if and only if every stripped secret is restorable and every kept one
   fits.
   */
  lemma RoundTripExactly(j: Json, sites: seq<Site>)
    requires Arranged(j, sites)
    ensures StripThenPatch(j, sites) == Marked(j, sites) <==> forall s <- sites :: Fitting(j, s)
  {
    if forall s <- sites :: Fitting(j, s) {
      RestoredWhenRestorable(j, sites);
    } else {
      var s :| s in sites && !Fitting(j, s);
      if Stripped(s) && !Restorable(j, s) {
        LostWhenNotRestorable(j, sites, s);
      } else {
        MismarkedWhenMisfit(j, sites, s);
      }
    }
  }
}
