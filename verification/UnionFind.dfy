/**
 The disjoint-set forest kept in the `parent` vector of the tag clusterer: `find` with full
 path compression and `union` without ranks.  A vector is a forest when some ghost height
 function strictly grows along parent links; the heights only justify termination, so the
 root of an index is shown not to depend on which heights are chosen.
 */
module UnionFind {

  ghost predicate Ranked(p: seq<nat>, h: seq<nat>) {
    && |h| == |p|
    && forall i :: 0 <= i < |p| ==> p[i] < |p| && (p[i] != i ==> h[i] < h[p[i]])
  }

  ghost predicate Forest(p: seq<nat>) {
    exists h :: Ranked(p, h)
  }

  ghost function Top(h: seq<nat>): (t: nat)
    ensures forall i :: 0 <= i < |h| ==> h[i] <= t
  {
    if h == [] then 0
    else
      var t := Top(h[..|h| - 1]);
      if t < h[|h| - 1] then h[|h| - 1] else t
  }

  ghost function Climb(p: seq<nat>, h: seq<nat>, i: nat): (r: nat)
    requires Ranked(p, h) && i < |p|
    ensures r < |p| && p[r] == r
    ensures r == i || h[i] < h[r]
    decreases Top(h) - h[i]
  {
    if p[i] == i then i else Climb(p, h, p[i])
  }

  ghost function Heights(p: seq<nat>): (h: seq<nat>)
    requires Forest(p)
    ensures Ranked(p, h)
  {
    var h :| Ranked(p, h); h
  }

  /** The index at which following parent links from `i` stops. */
  ghost function Root(p: seq<nat>, i: nat): (r: nat)
    requires Forest(p) && i < |p|
    ensures r < |p| && p[r] == r
  {
    Climb(p, Heights(p), i)
  }

  ghost function Distance(p: seq<nat>, i: nat): nat
    requires Forest(p) && i < |p|
  {
    Top(Heights(p)) - Heights(p)[i]
  }

  lemma {:induction false} ClimbIgnoresHeights(p: seq<nat>, h: seq<nat>, h': seq<nat>, i: nat)
    requires Ranked(p, h) && Ranked(p, h') && i < |p|
    ensures Climb(p, h, i) == Climb(p, h', i)
    decreases Top(h) - h[i]
  {
    if p[i] != i {
      ClimbIgnoresHeights(p, h, h', p[i]);
    }
  }

  lemma RootIsClimb(p: seq<nat>, h: seq<nat>)
    requires Ranked(p, h)
    ensures forall i :: 0 <= i < |p| ==> Root(p, i) == Climb(p, h, i)
  {
    forall i | 0 <= i < |p| ensures Root(p, i) == Climb(p, h, i) {
      ClimbIgnoresHeights(p, Heights(p), h, i);
    }
  }

  lemma {:induction false} ClimbAfterCompression(p: seq<nat>, h: seq<nat>, i: nat, j: nat)
    requires Ranked(p, h) && i < |p| && j < |p|
    requires Ranked(p[i := Climb(p, h, i)], h)
    ensures Climb(p[i := Climb(p, h, i)], h, j) == Climb(p, h, j)
    decreases Top(h) - h[j]
  {
    var r := Climb(p, h, i);
    if p[j] != j && j != i {
      ClimbAfterCompression(p, h, i, p[j]);
    }
  }

  /** Pointing an index straight at its root changes no root. */
  lemma CompressionKeepsRoots(p: seq<nat>, i: nat)
    requires Forest(p) && i < |p|
    ensures Forest(p[i := Root(p, i)])
    ensures forall j :: 0 <= j < |p| ==> Root(p[i := Root(p, i)], j) == Root(p, j)
  {
    var h := Heights(p);
    var p' := p[i := Root(p, i)];
    assert Ranked(p', h);
    forall j | 0 <= j < |p| ensures Root(p', j) == Root(p, j) {
      ClimbAfterCompression(p, h, i, j);
      RootIsClimb(p', h);
    }
  }

  lemma {:induction false} ClimbAfterLink(p: seq<nat>, h: seq<nat>, h': seq<nat>, ra: nat, rb: nat, j: nat)
    requires Ranked(p, h) && ra < |p| && rb < |p| && j < |p| && ra != rb
    requires p[ra] == ra && p[rb] == rb
    requires Ranked(p[ra := rb], h')
    ensures Climb(p[ra := rb], h', j) == if Climb(p, h, j) == ra then rb else Climb(p, h, j)
    decreases Top(h) - h[j]
  {
    if j == ra {
      assert Climb(p[ra := rb], h', rb) == rb;
    } else if p[j] != j {
      ClimbAfterLink(p, h, h', ra, rb, p[j]);
    }
  }

  /** Hanging one root under another merges exactly their two trees. */
  lemma LinkMergesTrees(p: seq<nat>, ra: nat, rb: nat)
    requires Forest(p) && ra < |p| && rb < |p| && ra != rb && p[ra] == ra && p[rb] == rb
    ensures Forest(p[ra := rb])
    ensures forall j :: 0 <= j < |p| ==>
              Root(p[ra := rb], j) == if Root(p, j) == ra then rb else Root(p, j)
  {
    var h := Heights(p);
    var h' := h[rb := if h[rb] <= h[ra] then h[ra] + 1 else h[rb]];
    var p' := p[ra := rb];
    assert Ranked(p', h');
    forall j | 0 <= j < |p| ensures Root(p', j) == if Root(p, j) == ra then rb else Root(p, j) {
      ClimbAfterLink(p, h, h', ra, rb, j);
      RootIsClimb(p', h');
    }
  }

  lemma IdentityIsForest(p: seq<nat>)
    requires forall i :: 0 <= i < |p| ==> p[i] == i
    ensures Forest(p)
    ensures forall i :: 0 <= i < |p| ==> Root(p, i) == i
  {
    var h := seq(|p|, i => 0);
    assert Ranked(p, h);
    RootIsClimb(p, h);
  }

  /**
   The recursive `find`: every slot it writes then points directly at its root, and no
   index changes root.
   */
  method Find(parent: array<nat>, i: nat) returns (r: nat)
    requires i < parent.Length && Forest(parent[..])
    modifies parent
    ensures Forest(parent[..])
    ensures r == old(Root(parent[..], i)) && parent[i] == r
    ensures forall j :: 0 <= j < parent.Length ==> Root(parent[..], j) == old(Root(parent[..], j))
    ensures forall j :: 0 <= j < parent.Length ==>
              parent[j] == old(parent[j]) || parent[j] == Root(parent[..], j)
    decreases Distance(parent[..], i)
  {
    if parent[i] != i {
      ghost var p0 := parent[..];
      RootIsClimb(p0, Heights(p0));
      r := Find(parent, parent[i]);
      ghost var p1 := parent[..];
      assert r == Root(p1, i);
      CompressionKeepsRoots(p1, i);
      parent[i] := r;
      assert parent[..] == p1[i := r];
    }
    r := parent[i];
    RootIsClimb(parent[..], Heights(parent[..]));
  }

  method Union(parent: array<nat>, a: nat, b: nat)
    requires a < parent.Length && b < parent.Length && Forest(parent[..])
    modifies parent
    ensures Forest(parent[..])
    ensures forall j :: 0 <= j < parent.Length ==>
              Root(parent[..], j) ==
              if old(Root(parent[..], j)) == old(Root(parent[..], a)) then old(Root(parent[..], b))
              else old(Root(parent[..], j))
  {
    var ra := Find(parent, a);
    var rb := Find(parent, b);
    if ra != rb {
      ghost var p := parent[..];
      LinkMergesTrees(p, ra, rb);
      parent[ra] := rb;
      assert parent[..] == p[ra := rb];
    }
  }
}
