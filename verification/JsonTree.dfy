/** JSON payload trees: reading and writing along a path, and when two writes do not meet. */
module JsonTree {

  import opened Options

  /** A decoded JSON value. Objects are unordered, as Python compares them. */
  datatype Json =
    | Null
    | Bool(b: bool)
    | Num(n: int)
    | Str(s: string)
    | Arr(items: seq<Json>)
    | Obj(fields: map<string, Json>)

  datatype Step = Key(key: string) | Idx(idx: nat)

  type Path = seq<Step>

  /** `j[step]`, or None where Python would find no such key or index. */
  function Child(j: Json, step: Step): Option<Json> {
    match step
    case Key(k) => if j.Obj? && k in j.fields then Some(j.fields[k]) else None
    case Idx(i) => if j.Arr? && i < |j.items| then Some(j.items[i]) else None
  }

  function Get(j: Json, k: string): Option<Json> {
    Child(j, Key(k))
  }

  function OrNull(o: Option<Json>): Json {
    match o case None => Null case Some(v) => v
  }

  /** `j.get(k, [])` as a list; anything but a list has no elements. */
  function Elements(j: Json, k: string): seq<Json> {
    match Get(j, k)
    case Some(Arr(items)) => items
    case _ => []
  }

  /** Python truth value. */
  predicate Truthy(j: Json) {
    match j
    case Null => false
    case Bool(b) => b
    case Num(n) => n != 0
    case Str(s) => s != ""
    case Arr(items) => items != []
    case Obj(fields) => fields != map[]
  }

  /** What Python takes for false. */
  lemma FalsyExactly(j: Json)
    ensures !Truthy(j) <==> j in {Null, Bool(false), Num(0), Str(""), Arr([]), Obj(map[])}
  {
  }

  function Lookup(j: Json, p: Path): Option<Json> {
    if p == [] then Some(j)
    else match Child(j, p[0])
      case None => None
      case Some(c) => Lookup(c, p[1..])
  }

  /** The node at `p`, or Null when there is none. */
  function Node(j: Json, p: Path): Json {
    OrNull(Lookup(j, p))
  }

  /** Assign (`Some`) or delete (`None`) one key, or assign one list element. */
  function PutChild(j: Json, step: Step, v: Option<Json>): Json {
    match step
    case Key(k) =>
      if !j.Obj? then j
      else if v.Some? then Obj(j.fields[k := v.value])
      else Obj(j.fields - {k})
    case Idx(i) =>
      if j.Arr? && i < |j.items| && v.Some? then Arr(j.items[i := v.value]) else j
  }

  /** Assign or delete at the end of a path; nothing happens when the parent does not exist. */
  function Write(j: Json, p: Path, v: Option<Json>): Json {
    if p == [] then (if v.Some? then v.value else j)
    else if |p| == 1 then PutChild(j, p[0], v)
    else match Child(j, p[0])
      case None => j
      case Some(c) => PutChild(j, p[0], Some(Write(c, p[1..], v)))
  }

  /** The two paths part ways at some step, so neither is a prefix of the other. */
  predicate Diverge(p: Path, q: Path) {
    p != [] && q != [] && (p[0] != q[0] || Diverge(p[1..], q[1..]))
  }

  // ----- divergence

  lemma {:induction false} DivergeSymmetric(p: Path, q: Path)
    ensures Diverge(p, q) == Diverge(q, p)
  {
    if p != [] && q != [] && p[0] == q[0] {
      DivergeSymmetric(p[1..], q[1..]);
    }
  }

  lemma {:induction false} DivergeExtend(p: Path, q: Path, x: Path, y: Path)
    requires Diverge(p, q)
    ensures Diverge(p + x, q + y)
  {
    assert (p + x)[1..] == p[1..] + x && (q + y)[1..] == q[1..] + y;
    if p[0] == q[0] {
      DivergeExtend(p[1..], q[1..], x, y);
    }
  }

  lemma {:induction false} DivergeUnder(p: Path, x: Path, y: Path)
    ensures Diverge(p + x, p + y) == Diverge(x, y)
  {
    if p == [] {
      assert p + x == x && p + y == y;
    } else {
      assert (p + x)[1..] == p[1..] + x && (p + y)[1..] == p[1..] + y;
      DivergeUnder(p[1..], x, y);
    }
  }

  /** Different steps after a common prefix, whatever follows. */
  lemma {:induction false} DivergeAt(p: Path, s: Step, t: Step, x: Path, y: Path)
    requires s != t
    ensures Diverge(p + [s] + x, p + [t] + y)
  {
    DivergeUnder(p, [s], [t]);
    DivergeExtend(p + [s], p + [t], x, y);
  }

  // ----- reading and writing

  lemma {:induction false} LookupSplit(j: Json, p: Path, q: Path)
    ensures Lookup(j, p + q) ==
            match Lookup(j, p) case None => None case Some(c) => Lookup(c, q)
  {
    if p == [] {
      assert p + q == q;
    } else {
      assert (p + q)[1..] == p[1..] + q;
      match Child(j, p[0])
      case None =>
      case Some(c) => LookupSplit(c, p[1..], q);
    }
  }

  lemma OneStep(c: Json, s: Step)
    ensures Lookup(c, [s]) == Child(c, s)
  {
    assert [s][1..] == [];
  }

  lemma {:induction false} WriteSplit(j: Json, p: Path, q: Path, v: Option<Json>)
    requires Lookup(j, p).Some? && q != []
    ensures Write(j, p + q, v) == Write(j, p, Some(Write(Lookup(j, p).value, q, v)))
  {
    if p == [] {
      assert p + q == q;
    } else {
      assert (p + q)[1..] == p[1..] + q;
      var c := Child(j, p[0]).value;
      WriteSplit(c, p[1..], q, v);
      if |p| == 1 {
        assert p[1..] + q == q;
      }
    }
  }

  /** A write is invisible on every path that diverges from it. */
  lemma {:induction false} WriteFrame(j: Json, p: Path, v: Option<Json>, q: Path)
    requires Diverge(p, q)
    ensures Lookup(Write(j, p, v), q) == Lookup(j, q)
  {
    if |p| > 1 && p[0] == q[0] && Child(j, p[0]).Some? {
      WriteFrame(Child(j, p[0]).value, p[1..], v, q[1..]);
    }
  }

  lemma {:induction false} WriteCommute(j: Json, p: Path, v: Option<Json>, q: Path, w: Option<Json>)
    requires Diverge(p, q)
    ensures Write(Write(j, p, v), q, w) == Write(Write(j, q, w), p, v)
  {
    if p[0] != q[0] {
      HeadsCommute(j, p, v, q, w);
    } else if Child(j, p[0]).Some? {
      var c := Child(j, p[0]).value;
      WriteCommute(c, p[1..], v, q[1..], w);
      WriteBoth(j, p, v, q, w);
      WriteBoth(j, q, w, p, v);
    }
  }

  /** Two writes below one child are one write of that child. */
  lemma {:induction false} WriteBoth(j: Json, p: Path, v: Option<Json>, q: Path, w: Option<Json>)
    requires |p| > 1 && |q| > 1 && p[0] == q[0] && Child(j, p[0]).Some?
    ensures Write(Write(j, p, v), q, w)
         == PutChild(j, p[0], Some(Write(Write(Child(j, p[0]).value, p[1..], v), q[1..], w)))
  {
    var c1 := Write(Child(j, p[0]).value, p[1..], v);
    PutChildTwice(j, p[0], c1, Write(c1, q[1..], w));
  }

  lemma PutChildTwice(j: Json, s: Step, c: Json, d: Json)
    requires Child(j, s).Some?
    ensures Child(PutChild(j, s, Some(c)), s) == Some(c)
    ensures PutChild(PutChild(j, s, Some(c)), s, Some(d)) == PutChild(j, s, Some(d))
  {
  }

  lemma {:induction false} HeadsCommute(j: Json, p: Path, v: Option<Json>, q: Path, w: Option<Json>)
    requires p != [] && q != [] && p[0] != q[0]
    ensures Write(Write(j, p, v), q, w) == Write(Write(j, q, w), p, v)
  {
    PutChildCommute(j, p[0], if |p| == 1 then v else Some(Write(OrNull(Child(j, p[0])), p[1..], v)),
                    q[0], if |q| == 1 then w else Some(Write(OrNull(Child(j, q[0])), q[1..], w)));
  }

  lemma PutChildCommute(j: Json, s: Step, v: Option<Json>, t: Step, w: Option<Json>)
    requires s != t
    ensures PutChild(PutChild(j, s, v), t, w) == PutChild(PutChild(j, t, w), s, v)
    ensures Child(PutChild(j, s, v), t) == Child(j, t)
    ensures Child(PutChild(j, t, w), s) == Child(j, s)
  {
  }

  /** What a write leaves at the path of an existing node. */
  lemma {:induction false} ReadBack(j: Json, p: Path, v: Json)
    requires Lookup(j, p).Some?
    ensures Lookup(Write(j, p, Some(v)), p) == Some(v)
  {
    if |p| > 1 {
      ReadBack(Child(j, p[0]).value, p[1..], v);
    }
  }

  lemma {:induction false} WriteSame(j: Json, p: Path)
    requires Lookup(j, p).Some?
    ensures Write(j, p, Lookup(j, p)) == j
  {
    if |p| == 1 {
    } else if |p| > 1 {
      WriteSame(Child(j, p[0]).value, p[1..]);
    }
  }

  lemma {:induction false} WriteTwice(j: Json, p: Path, v: Option<Json>, w: Json)
    requires v.Some? || (p != [] && p[|p|-1].Key?)
    ensures Write(Write(j, p, v), p, Some(w)) == Write(j, p, Some(w))
  {
    if |p| > 1 && Child(j, p[0]).Some? {
      WriteTwice(Child(j, p[0]).value, p[1..], v, w);
    }
  }

  /** Writing strictly below a path neither creates nor destroys the node at that path. */
  lemma {:induction false} WriteBelow(j: Json, q: Path, r: Path, v: Option<Json>)
    requires r != []
    ensures Lookup(Write(j, q + r, v), q) ==
            match Lookup(j, q) case None => None case Some(c) => Some(Write(c, r, v))
  {
    if q == [] {
      assert q + r == r;
    } else {
      assert (q + r)[1..] == q[1..] + r && (q + r)[0] == q[0];
      match Child(j, q[0])
      case None =>
      case Some(c) => WriteBelow(c, q[1..], r, v);
    }
  }

  // ----- lists of writes

  datatype Edit = Edit(path: Path, value: Option<Json>)

  function Apply(j: Json, edits: seq<Edit>): Json
    decreases |edits|
  {
    if edits == [] then j else Apply(Write(j, edits[0].path, edits[0].value), edits[1..])
  }

  /** No edit of the list meets `q`. */
  ghost predicate Avoid(edits: seq<Edit>, q: Path) {
    forall e <- edits :: Diverge(e.path, q)
  }

  ghost predicate Separate(a: seq<Edit>, b: seq<Edit>) {
    forall e <- b :: Avoid(a, e.path)
  }

  lemma {:induction false} ApplySplit(j: Json, a: seq<Edit>, b: seq<Edit>)
    ensures Apply(j, a + b) == Apply(Apply(j, a), b)
    decreases |a|
  {
    if a == [] {
      assert a + b == b;
    } else {
      assert (a + b)[1..] == a[1..] + b;
      ApplySplit(Write(j, a[0].path, a[0].value), a[1..], b);
    }
  }

  lemma {:induction false} ApplyFrame(j: Json, edits: seq<Edit>, q: Path)
    requires Avoid(edits, q)
    ensures Lookup(Apply(j, edits), q) == Lookup(j, q)
    decreases |edits|
  {
    if edits != [] {
      WriteFrame(j, edits[0].path, edits[0].value, q);
      ApplyFrame(Write(j, edits[0].path, edits[0].value), edits[1..], q);
    }
  }

  lemma {:induction false} ApplyPastOne(j: Json, edits: seq<Edit>, e: Edit)
    requires Avoid(edits, e.path)
    ensures Apply(Write(j, e.path, e.value), edits) == Write(Apply(j, edits), e.path, e.value)
    decreases |edits|
  {
    if edits != [] {
      var d := edits[0];
      assert d in edits;
      WriteCommute(j, d.path, d.value, e.path, e.value);
      ApplyPastOne(Write(j, d.path, d.value), edits[1..], e);
    }
  }

  /** Separate lists of writes can be done in either order. */
  lemma {:induction false} ApplyCommute(j: Json, a: seq<Edit>, b: seq<Edit>)
    requires Separate(a, b)
    ensures Apply(Apply(j, a), b) == Apply(Apply(j, b), a)
    decreases |b|
  {
    if b != [] {
      assert b[0] in b;
      ApplyPastOne(j, a, b[0]);
      forall e <- b[1..] ensures Avoid(a, e.path) {
        assert e in b;
      }
      ApplyCommute(Write(j, b[0].path, b[0].value), a, b[1..]);
    }
  }
}
