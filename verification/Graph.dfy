/** Directed graphs as edge sets: walks, cycles, and what one more edge or a renaming does to them. */
module Graph {

  type Edges = set<(string, string)>

  ghost predicate Walk(edges: Edges, p: seq<string>) {
    p != [] && forall i | 0 <= i < |p| - 1 :: (p[i], p[i + 1]) in edges
  }

  ghost predicate WalkFromTo(edges: Edges, p: seq<string>, a: string, b: string) {
    Walk(edges, p) && p[0] == a && p[|p| - 1] == b
  }

  ghost predicate Reaches(edges: Edges, a: string, b: string) {
    exists p :: WalkFromTo(edges, p, a, b)
  }

  ghost predicate Cycle(edges: Edges, p: seq<string>) {
    Walk(edges, p) && |p| > 1 && p[0] == p[|p| - 1]
  }

  ghost predicate Acyclic(edges: Edges) {
    forall p: seq<string> :: !Cycle(edges, p)
  }

  // ----- one more edge

  /** The part of a walk before it first takes the edge from `r`. */
  lemma {:induction false} CutAtEdge(edges: Edges, r: string, f: string, p: seq<string>) returns (q: seq<string>)
    requires Walk(edges + {(r, f)}, p) && p[|p| - 1] == r
    ensures WalkFromTo(edges, q, p[0], r)
  {
    if |p| == 1 {
      q := p;
    } else if (p[0], p[1]) == (r, f) {
      q := [r];
    } else {
      assert (p[0], p[1]) in edges;
      var tail := CutAtEdge(edges, r, f, p[1..]);
      q := [p[0]] + tail;
      forall i | 0 <= i < |q| - 1 ensures (q[i], q[i + 1]) in edges {
        if i > 0 {
          assert (tail[i - 1], tail[i]) in edges;
        }
      }
    }
  }

  /** A cycle through the edge from `r` to `f`, started at `f`. */
  lemma Rotate(edges: Edges, p: seq<string>, i: nat) returns (q: seq<string>)
    requires Cycle(edges, p) && i < |p| - 1
    ensures WalkFromTo(edges, q, p[i + 1], p[i])
  {
    q := p[i+1..] + p[1..i+1];
    forall k | 0 <= k < |q| - 1 ensures (q[k], q[k + 1]) in edges {
      var n := |p| - i - 1;
      if k < n - 1 {
        assert q[k] == p[i + 1 + k] && q[k + 1] == p[i + 2 + k];
      } else if k == n - 1 {
        assert q[k] == p[|p| - 1] == p[0] && q[k + 1] == p[1];
      } else {
        assert q[k] == p[k - n + 1] && q[k + 1] == p[k - n + 2];
      }
    }
  }

  lemma CycleUsesEdge(edges: Edges, r: string, f: string, p: seq<string>)
    requires Cycle(edges + {(r, f)}, p)
    ensures Cycle(edges, p) || Reaches(edges, f, r)
  {
    if i :| 0 <= i < |p| - 1 && (p[i], p[i + 1]) == (r, f) {
      var q := Rotate(edges + {(r, f)}, p, i);
      var cut := CutAtEdge(edges, r, f, q);
      assert WalkFromTo(edges, cut, f, r);
    }
  }

  /**
   Adding one edge from `r` to `f` keeps a graph acyclic exactly when it was acyclic and `f` did
   not reach `r`.
   */
  lemma OneMoreEdge(edges: Edges, r: string, f: string)
    ensures Acyclic(edges + {(r, f)}) <==> Acyclic(edges) && !Reaches(edges, f, r)
  {
    var more := edges + {(r, f)};
    if Acyclic(more) {
      forall p: seq<string> ensures !Cycle(edges, p) {
        if Cycle(edges, p) {
          assert Cycle(more, p);
        }
      }
      if p :| WalkFromTo(edges, p, f, r) {
        assert Cycle(more, [r] + p) by {
          var c := [r] + p;
          forall i | 0 <= i < |c| - 1 ensures (c[i], c[i + 1]) in more {
            if i > 0 {
              assert (p[i - 1], p[i]) in edges;
            }
          }
        }
      }
    }
    if Acyclic(edges) && !Reaches(edges, f, r) {
      forall p: seq<string> ensures !Cycle(more, p) {
        if Cycle(more, p) {
          CycleUsesEdge(edges, r, f, p);
        }
      }
    }
  }

  /** A walk starting at the end of a new edge starts at its beginning as well. */
  lemma ReachThroughEdge(edges: Edges, r: string, f: string, b: string)
    requires Reaches(edges, f, b)
    ensures Reaches(edges + {(r, f)}, r, b)
  {
    var p :| WalkFromTo(edges, p, f, b);
    var c := [r] + p;
    forall i | 0 <= i < |c| - 1 ensures (c[i], c[i + 1]) in edges + {(r, f)} {
      if i > 0 {
        assert (p[i - 1], p[i]) in edges;
      }
    }
    assert WalkFromTo(edges + {(r, f)}, c, r, b);
  }

  // ----- renaming

  function Rename(p: seq<string>, names: map<string, string>): (q: seq<string>)
    requires forall x <- p :: x in names
    ensures |q| == |p| && forall i | 0 <= i < |p| :: q[i] == names[p[i]]
  {
    seq(|p|, i requires 0 <= i < |p| => names[p[i]])
  }

  ghost predicate Renamed(edges: Edges, names: map<string, string>, image: Edges) {
    && (forall e <- edges :: e.0 in names && e.1 in names && (names[e.0], names[e.1]) in image)
    && (forall d <- image :: exists e <- edges :: e.0 in names && e.1 in names && d == (names[e.0], names[e.1]))
  }

  ghost predicate Injective(names: map<string, string>) {
    forall a, b | a in names && b in names && names[a] == names[b] :: a == b
  }

  lemma RenameWalk(edges: Edges, names: map<string, string>, image: Edges, p: seq<string>)
    requires Renamed(edges, names, image) && Walk(edges, p) && |p| > 1
    ensures forall x <- p :: x in names
    ensures Walk(image, Rename(p, names))
  {
    forall x | x in p ensures x in names {
      var i :| 0 <= i < |p| && p[i] == x;
      if i == 0 {
        assert (p[0], p[1]) in edges;
      } else {
        assert (p[i - 1], p[i]) in edges;
      }
    }
    var q := Rename(p, names);
    forall i | 0 <= i < |q| - 1 ensures (q[i], q[i + 1]) in image {
      assert (p[i], p[i + 1]) in edges;
    }
  }

  /** A walk in the image is the image of a walk. */
  lemma {:induction false} NameWalk(edges: Edges, names: map<string, string>, image: Edges, q: seq<string>)
    returns (p: seq<string>)
    requires Renamed(edges, names, image) && Injective(names) && Walk(image, q) && |q| > 1
    ensures Walk(edges, p) && |p| == |q|
    ensures (forall x <- p :: x in names) && Rename(p, names) == q
  {
    assert (q[0], q[1]) in image;
    var e :| e in edges && e.0 in names && e.1 in names && (q[0], q[1]) == (names[e.0], names[e.1]);
    if |q| == 2 {
      p := [e.0, e.1];
    } else {
      var rest := q[1..];
      forall i | 0 <= i < |rest| - 1 ensures (rest[i], rest[i + 1]) in image {
        assert (q[i + 1], q[i + 2]) in image;
      }
      var tail := NameWalk(edges, names, image, rest);
      assert names[tail[0]] == rest[0] == names[e.1];
      p := [e.0] + tail;
      forall i | 0 <= i < |p| - 1 ensures (p[i], p[i + 1]) in edges {
        if i > 0 {
          assert (tail[i - 1], tail[i]) in edges;
        }
      }
    }
  }

  /** Renaming nodes one-to-one keeps cycles. */
  lemma RenameKeepsCycles(edges: Edges, names: map<string, string>, image: Edges)
    requires Renamed(edges, names, image) && Injective(names)
    ensures Acyclic(edges) <==> Acyclic(image)
  {
    if p: seq<string> :| Cycle(edges, p) {
      RenameWalk(edges, names, image, p);
      assert Cycle(image, Rename(p, names));
    }
    if q: seq<string> :| Cycle(image, q) {
      var p := NameWalk(edges, names, image, q);
      assert names[p[0]] == names[p[|p| - 1]];
      assert Cycle(edges, p);
    }
  }

  /** Renaming keeps which named nodes reach which. */
  lemma RenameKeepsReach(edges: Edges, names: map<string, string>, image: Edges, a: string, b: string)
    requires Renamed(edges, names, image) && a in names && b in names && Reaches(edges, a, b)
    ensures Reaches(image, names[a], names[b])
  {
    var p :| WalkFromTo(edges, p, a, b);
    if |p| == 1 {
      assert WalkFromTo(image, [names[a]], names[a], names[b]);
    } else {
      RenameWalk(edges, names, image, p);
      assert WalkFromTo(image, Rename(p, names), names[a], names[b]);
    }
  }
}
