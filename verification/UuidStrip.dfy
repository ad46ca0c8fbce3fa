/** `strip_uuids`: every `uuid` key is deleted, at any depth, in place. */
module UuidStrip {
  import opened Options
  import opened JsonTree

  const UUID := "uuid"

  function StripUuids(j: Json): Json
    decreases j
  {
    match j
    case Arr(items) => Arr(seq(|items|, i requires 0 <= i < |items| => StripUuids(items[i])))
    case Obj(fields) => Obj(map k | k in fields && k != UUID :: StripUuids(fields[k]))
    case _ => j
  }

  function StripOption(v: Option<Json>): Option<Json> {
    match v case None => None case Some(x) => Some(StripUuids(x))
  }

  predicate NoUuidStep(p: Path) {
    Key(UUID) !in p
  }

  lemma ChildCommutes(j: Json, s: Step)
    ensures s != Key(UUID) ==> Child(StripUuids(j), s) == StripOption(Child(j, s))
    ensures s == Key(UUID) ==> Child(StripUuids(j), s) == None
  {
  }

  /** Looking up a path without a `uuid` step commutes with the strip. */
  lemma {:induction false} LookupCommutes(j: Json, p: Path)
    requires NoUuidStep(p)
    ensures Lookup(StripUuids(j), p) == StripOption(Lookup(j, p))
  {
    if p != [] {
      ChildCommutes(j, p[0]);
      match Child(j, p[0])
      case None =>
      case Some(c) => LookupCommutes(c, p[1..]);
    }
  }

  /** The same node, as far as its own kind, value, length and keys go, those named `uuid` aside. */
  predicate SameNode(before: Json, after: Json) {
    match before
    case Arr(items) => after.Arr? && |after.items| == |items|
    case Obj(fields) => after.Obj? && after.fields.Keys == fields.Keys - {"uuid"}
    case _ => after == before
  }

  /** Node by node: nothing is lost, added or changed but `uuid` keys and what hangs from them. */
  lemma StripExactly(j: Json, p: Path)
    requires Key("uuid") !in p
    ensures Lookup(StripUuids(j), p).Some? == Lookup(j, p).Some?
    ensures Lookup(j, p).Some? ==> SameNode(Lookup(j, p).value, Lookup(StripUuids(j), p).value)
  {
    LookupCommutes(j, p);
    if Lookup(j, p).Some? {
      OneNode(Lookup(j, p).value);
    }
  }

  lemma OneNode(v: Json)
    ensures SameNode(v, StripUuids(v))
  {
  }

  /** Stripping one part of a payload in place: that part node by node, and nothing beside it. */
  lemma StripInPlace(payload: Json, at: Path, p: Path)
    requires Lookup(payload, at).Some?
    ensures var after := Write(payload, at, Some(StripUuids(Lookup(payload, at).value)));
      && (Key("uuid") !in p ==>
            && Lookup(after, at + p).Some? == Lookup(payload, at + p).Some?
            && (Lookup(after, at + p).Some? ==> SameNode(Lookup(payload, at + p).value, Lookup(after, at + p).value)))
      && (Diverge(at, p) ==> Lookup(after, p) == Lookup(payload, p))
  {
    var part := Lookup(payload, at).value;
    var after := Write(payload, at, Some(StripUuids(part)));
    ReadBack(payload, at, StripUuids(part));
    LookupSplit(payload, at, p);
    LookupSplit(after, at, p);
    hide StripUuids, SameNode;
    if Key("uuid") !in p {
      StripExactly(part, p);
    }
    if Diverge(at, p) {
      WriteFrame(payload, at, Some(StripUuids(part)), p);
    }
  }

  /** No path through a `uuid` key is left. */
  lemma {:induction false} NoUuidLeft(j: Json, p: Path)
    requires Lookup(StripUuids(j), p).Some?
    ensures NoUuidStep(p)
  {
    if p != [] {
      ChildCommutes(j, p[0]);
      NoUuidLeft(Child(j, p[0]).value, p[1..]);
      assert p == [p[0]] + p[1..];
    }
  }

  lemma {:induction false} StripTwice(j: Json)
    ensures StripUuids(StripUuids(j)) == StripUuids(j)
    decreases j
  {
    match j
    case Arr(items) =>
      forall i | 0 <= i < |items| ensures StripUuids(StripUuids(items[i])) == StripUuids(items[i]) {
        StripTwice(items[i]);
      }
      assert StripUuids(StripUuids(j)).items == StripUuids(j).items;
    case Obj(fields) =>
      forall k | k in fields && k != UUID ensures StripUuids(StripUuids(fields[k])) == StripUuids(fields[k]) {
        StripTwice(fields[k]);
      }
      assert StripUuids(StripUuids(j)).fields == StripUuids(j).fields;
    case _ =>
  }

  lemma {:induction false} PutChildCommutes(j: Json, s: Step, v: Option<Json>)
    requires s != Key(UUID)
    ensures StripUuids(PutChild(j, s, v)) == PutChild(StripUuids(j), s, StripOption(v))
  {
    match s
    case Key(k) =>
      if j.Obj? {
        assert StripUuids(PutChild(j, s, v)).fields == PutChild(StripUuids(j), s, StripOption(v)).fields;
      }
    case Idx(i) =>
      if j.Arr? && i < |j.items| && v.Some? {
        assert StripUuids(PutChild(j, s, v)).items == PutChild(StripUuids(j), s, StripOption(v)).items;
      }
  }

  /** A write at a path without a `uuid` step can be done before or after the strip. */
  lemma {:induction false} WriteCommutes(j: Json, p: Path, v: Option<Json>)
    requires NoUuidStep(p)
    ensures StripUuids(Write(j, p, v)) == Write(StripUuids(j), p, StripOption(v))
  {
    if p != [] {
      ChildCommutes(j, p[0]);
      if |p| == 1 {
        PutChildCommutes(j, p[0], v);
      } else if Child(j, p[0]).Some? {
        var c := Child(j, p[0]).value;
        WriteCommutes(c, p[1..], v);
        PutChildCommutes(j, p[0], Some(Write(c, p[1..], v)));
      }
    }
  }

  ghost predicate EditsUnmarked(edits: seq<Edit>) {
    forall e <- edits :: NoUuidStep(e.path) && StripOption(e.value) == e.value
  }

  lemma {:induction false} ApplyCommutes(j: Json, edits: seq<Edit>)
    requires EditsUnmarked(edits)
    ensures StripUuids(Apply(j, edits)) == Apply(StripUuids(j), edits)
    decreases |edits|
  {
    if edits != [] {
      var e := edits[0];
      assert e in edits;
      WriteCommutes(j, e.path, e.value);
      ApplyCommutes(Write(j, e.path, e.value), edits[1..]);
    }
  }

  // ----- in place

  /** Members walked so far are stripped, the others are as they were. */
  ghost function HalfStripped(fields: map<string, Json>, left: set<string>): Json {
    Obj(map k | k in fields && (k in left || k != UUID) :: if k in left then fields[k] else StripUuids(fields[k]))
  }

  lemma HalfStep(j: Json, at: Path, fields: map<string, Json>, left: set<string>, k: string)
    requires Lookup(j, at).Some? && k in left && left <= fields.Keys
    ensures var half := Write(j, at, Some(HalfStripped(fields, left)));
      && Lookup(half, at + [Key(k)]) == Some(fields[k])
      && Write(half, at + [Key(k)], if k == UUID then None else Some(StripUuids(fields[k])))
         == Write(j, at, Some(HalfStripped(fields, left - {k})))
  {
    var half := HalfStripped(fields, left);
    var v := if k == UUID then None else Some(StripUuids(fields[k]));
    ReadBack(j, at, half);
    var w := Write(j, at, Some(half));
    LookupSplit(w, at, [Key(k)]);
    OneStep(half, Key(k));
    WriteSplit(w, at, [Key(k)], v);
    assert Write(half, [Key(k)], v).fields == HalfStripped(fields, left - {k}).fields;
    if at != [] {
      WriteTwice(j, at, Some(half), HalfStripped(fields, left - {k}));
    }
  }

  ghost function HalfList(items: seq<Json>, i: nat): (half: Json)
    requires i <= |items|
    ensures half.Arr? && |half.items| == |items|
  {
    Arr(seq(|items|, n requires 0 <= n < |items| => if n < i then StripUuids(items[n]) else items[n]))
  }

  lemma ListStep(j: Json, at: Path, items: seq<Json>, i: nat)
    requires Lookup(j, at).Some? && i < |items|
    ensures var half := Write(j, at, Some(HalfList(items, i)));
      && Lookup(half, at + [Idx(i)]) == Some(items[i])
      && Write(half, at + [Idx(i)], Some(StripUuids(items[i]))) == Write(j, at, Some(HalfList(items, i + 1)))
  {
    var half := HalfList(items, i);
    var v := Some(StripUuids(items[i]));
    ReadBack(j, at, half);
    var w := Write(j, at, Some(half));
    LookupSplit(w, at, [Idx(i)]);
    OneStep(half, Idx(i));
    WriteSplit(w, at, [Idx(i)], v);
    assert Write(half, [Idx(i)], v).items == HalfList(items, i + 1).items;
    if at != [] {
      WriteTwice(j, at, Some(half), HalfList(items, i + 1));
    }
  }

  class UuidStripper {
    var payload: Json

    constructor (payload: Json)
      ensures this.payload == payload
    {
      this.payload := payload;
    }

    /** `strip_uuids` on the part of the payload at `at`, which is `node`. */
    method Strip(at: Path, node: Json)
      requires Lookup(payload, at) == Some(node)
      modifies this
      ensures payload == Write(old(payload), at, Some(StripUuids(node)))
      decreases node
    {
      match node {
        case Obj(fields) => StripFields(at, node);
        case Arr(items) => StripItems(at, node);
        case _ => WriteSame(payload, at);
      }
    }

    method StripFields(at: Path, node: Json)
      requires node.Obj? && Lookup(payload, at) == Some(node)
      modifies this
      ensures payload == Write(old(payload), at, Some(StripUuids(node)))
      decreases node, 0
    {
      var keys := node.fields.Keys;
      assert HalfStripped(node.fields, keys).fields == node.fields;
      WriteSame(payload, at);
      while keys != {}
        invariant keys <= node.fields.Keys
        invariant payload == Write(old(payload), at, Some(HalfStripped(node.fields, keys)))
        decreases |keys|
      {
        var key :| key in keys;
        HalfStep(old(payload), at, node.fields, keys, key);
        if key == UUID {
          payload := Write(payload, at + [Key(key)], None);
        } else {
          Strip(at + [Key(key)], node.fields[key]);
        }
        keys := keys - {key};
      }
      assert HalfStripped(node.fields, {}).fields == StripUuids(node).fields;
    }

    method StripItems(at: Path, node: Json)
      requires node.Arr? && Lookup(payload, at) == Some(node)
      modifies this
      ensures payload == Write(old(payload), at, Some(StripUuids(node)))
      decreases node, 0
    {
      var i := 0;
      assert HalfList(node.items, 0).items == node.items;
      WriteSame(payload, at);
      while i < |node.items|
        invariant i <= |node.items|
        invariant payload == Write(old(payload), at, Some(HalfList(node.items, i)))
      {
        ListStep(old(payload), at, node.items, i);
        Strip(at + [Idx(i)], node.items[i]);
        i := i + 1;
      }
      assert HalfList(node.items, |node.items|).items == StripUuids(node).items;
    }
  }
}
