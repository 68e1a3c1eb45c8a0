/**
 Clustering of memory entries by tag affinity.  Lower-casing is a parameter, so every result
 holds for any case folding; hash-map and hash-set iteration order is an arbitrary choice.
 */
module TagClusters {
  import opened UnionFind

  const MIN_SHARED_TAGS: nat := 2

  datatype Entry = Entry(id: string, tags: seq<string>)
  datatype Cluster = Cluster(entryIds: seq<string>, sharedTags: seq<string>)

  type Fold = string -> string

  function TagSet(e: Entry, lower: Fold): set<string> {
    set k | 0 <= k < |e.tags| :: lower(e.tags[k])
  }

  /** How many tags of a list fall in `tags`, counted with multiplicity. */
  function SharedCount(tags: set<string>, list: seq<string>, lower: Fold): nat {
    if list == [] then 0
    else (if lower(list[0]) in tags then 1 else 0) + SharedCount(tags, list[1..], lower)
  }

  /** The pairwise test of the double loop: asked only of an earlier and a later entry. */
  predicate Link(entries: seq<Entry>, lower: Fold, i: nat, j: nat)
    requires i < |entries| && j < |entries|
  {
    i < j && SharedCount(TagSet(entries[i], lower), entries[j].tags, lower) >= MIN_SHARED_TAGS
  }

  predicate Adjacent(entries: seq<Entry>, lower: Fold, a: nat, b: nat) {
    a < |entries| && b < |entries| && (Link(entries, lower, a, b) || Link(entries, lower, b, a))
  }

  predicate Chain(entries: seq<Entry>, lower: Fold, path: seq<nat>, a: nat, b: nat) {
    && path != [] && path[0] == a && path[|path| - 1] == b
    && a < |entries|
    && forall k :: 0 <= k < |path| - 1 ==> Adjacent(entries, lower, path[k], path[k + 1])
  }

  /** Two entries are related when a chain of pairwise links joins them. */
  ghost predicate Connected(entries: seq<Entry>, lower: Fold, a: nat, b: nat) {
    exists path :: Chain(entries, lower, path, a, b)
  }

  lemma ConnectedTrans(entries: seq<Entry>, lower: Fold, a: nat, b: nat, c: nat)
    requires Connected(entries, lower, a, b) && Connected(entries, lower, b, c)
    ensures Connected(entries, lower, a, c)
  {
    var p :| Chain(entries, lower, p, a, b);
    var q :| Chain(entries, lower, q, b, c);
    var path := p + q[1..];
    forall k | 0 <= k < |path| - 1 ensures Adjacent(entries, lower, path[k], path[k + 1]) {
      if k >= |p| - 1 {
        assert path[k] == q[k - (|p| - 1)] && path[k + 1] == q[k + 1 - (|p| - 1)];
      }
    }
    assert Chain(entries, lower, path, a, c);
  }

  lemma ConnectedSym(entries: seq<Entry>, lower: Fold, a: nat, b: nat)
    requires Connected(entries, lower, a, b)
    ensures Connected(entries, lower, b, a)
  {
    var p :| Chain(entries, lower, p, a, b);
    var n := |p|;
    var path := seq(n, k requires 0 <= k < n => p[n - 1 - k]);
    assert n > 1 ==> Adjacent(entries, lower, p[n - 2], p[n - 2 + 1]);
    forall k | 0 <= k < n - 1 ensures Adjacent(entries, lower, path[k], path[k + 1]) {
      assert Adjacent(entries, lower, p[n - 2 - k], p[n - 2 - k + 1]);
    }
    assert Chain(entries, lower, path, b, a);
  }

  lemma ConnectedRefl(entries: seq<Entry>, lower: Fold, a: nat)
    requires a < |entries|
    ensures Connected(entries, lower, a, a)
  {
    assert Chain(entries, lower, [a], a, a);
  }

  lemma LinkConnects(entries: seq<Entry>, lower: Fold, i: nat, j: nat)
    requires i < |entries| && j < |entries| && Link(entries, lower, i, j)
    ensures Connected(entries, lower, i, j)
  {
    assert Chain(entries, lower, [i, j], i, j);
  }

  /** Every index is chained to its root. */
  ghost predicate Sound(entries: seq<Entry>, lower: Fold, p: seq<nat>) {
    && |p| == |entries| && Forest(p)
    && forall a :: 0 <= a < |p| ==> Connected(entries, lower, a, Root(p, a))
  }

  /** Every link among the pairs before (i, j) in loop order has been merged. */
  ghost predicate Merged(entries: seq<Entry>, lower: Fold, p: seq<nat>, i: nat, j: nat)
    requires |p| == |entries| && Forest(p)
  {
    forall x, y :: 0 <= x < y < |p| && (x < i || (x == i && y < j)) && Link(entries, lower, x, y) ==>
      Root(p, x) == Root(p, y)
  }

  /** Merging the two trees of a linked pair keeps the invariant of the double loop. */
  lemma UnionStep(entries: seq<Entry>, lower: Fold, p: seq<nat>, q: seq<nat>, i: nat, j: nat)
    requires Sound(entries, lower, p) && Merged(entries, lower, p, i, j)
    requires i < |entries| && j < |entries| && Link(entries, lower, i, j)
    requires |q| == |p| && Forest(q)
    requires forall a :: 0 <= a < |p| ==>
               Root(q, a) == if Root(p, a) == Root(p, i) then Root(p, j) else Root(p, a)
    ensures Sound(entries, lower, q) && Merged(entries, lower, q, i, j + 1)
  {
    LinkConnects(entries, lower, i, j);
    ConnectedSym(entries, lower, i, Root(p, i));
    forall a | 0 <= a < |p| ensures Connected(entries, lower, a, Root(q, a)) {
      if Root(p, a) == Root(p, i) {
        ConnectedTrans(entries, lower, a, Root(p, i), i);
        ConnectedTrans(entries, lower, a, i, j);
        ConnectedTrans(entries, lower, a, j, Root(p, j));
      }
    }
  }

  /** Once every link is merged, equal roots and chains are the same relation. */
  lemma RootsAreComponents(entries: seq<Entry>, lower: Fold, p: seq<nat>, a: nat, b: nat)
    requires Sound(entries, lower, p) && Merged(entries, lower, p, |p|, 0)
    requires a < |p| && b < |p|
    ensures Root(p, a) == Root(p, b) <==> Connected(entries, lower, a, b)
  {
    if Root(p, a) == Root(p, b) {
      ConnectedSym(entries, lower, b, Root(p, b));
      ConnectedTrans(entries, lower, a, Root(p, a), b);
    }
    if Connected(entries, lower, a, b) {
      var path :| Chain(entries, lower, path, a, b);
      ChainKeepsRoot(entries, lower, p, path, a, b);
    }
  }

  lemma {:induction false} ChainKeepsRoot(entries: seq<Entry>, lower: Fold, p: seq<nat>, path: seq<nat>, a: nat, b: nat)
    requires Sound(entries, lower, p) && Merged(entries, lower, p, |p|, 0)
    requires a < |p| && b < |p| && Chain(entries, lower, path, a, b)
    ensures Root(p, a) == Root(p, b)
    decreases |path|
  {
    if |path| > 1 {
      assert Adjacent(entries, lower, path[0], path[1]);
      var rest := path[1..];
      forall k | 0 <= k < |rest| - 1 ensures Adjacent(entries, lower, rest[k], rest[k + 1]) {
        assert Adjacent(entries, lower, path[k + 1], path[k + 1 + 1]);
      }
      ChainKeepsRoot(entries, lower, p, rest, path[1], b);
    }
  }

  lemma RowDone(entries: seq<Entry>, lower: Fold, p: seq<nat>, i: nat)
    requires |p| == |entries| && Forest(p) && Merged(entries, lower, p, i, |p|)
    ensures Merged(entries, lower, p, i + 1, 0)
  {
  }

  /** Unions entry `i` with every later entry it is linked to. */
  method MergeRow(entries: seq<Entry>, lower: Fold, parent: array<nat>, i: nat)
    requires i < |entries| && Sound(entries, lower, parent[..]) && Merged(entries, lower, parent[..], i, 0)
    modifies parent
    ensures Sound(entries, lower, parent[..]) && Merged(entries, lower, parent[..], i + 1, 0)
  {
    var tagsA := TagSet(entries[i], lower);
    for j := i + 1 to |entries|
      invariant Sound(entries, lower, parent[..]) && Merged(entries, lower, parent[..], i, j)
    {
      var shared := SharedCount(tagsA, entries[j].tags, lower);
      if shared >= MIN_SHARED_TAGS {
        ghost var p := parent[..];
        Union(parent, i, j);
        UnionStep(entries, lower, p, parent[..], i, j);
      }
    }
    RowDone(entries, lower, parent[..], i);
  }

  lemma IdentityIsSound(entries: seq<Entry>, lower: Fold, p: seq<nat>)
    requires |p| == |entries| && forall i :: 0 <= i < |p| ==> p[i] == i
    ensures Sound(entries, lower, p) && Merged(entries, lower, p, 0, 0)
  {
    IdentityIsForest(p);
    forall a | 0 <= a < |p| ensures Connected(entries, lower, a, a) { ConnectedRefl(entries, lower, a); }
  }

  /** Equal roots and chains are the same relation. */
  ghost predicate RootsMatch(entries: seq<Entry>, lower: Fold, p: seq<nat>) {
    && |p| == |entries| && Forest(p)
    && forall a, b :: 0 <= a < |p| && 0 <= b < |p| ==> (Root(p, a) == Root(p, b) <==> Connected(entries, lower, a, b))
  }

  lemma AllMerged(entries: seq<Entry>, lower: Fold, p: seq<nat>)
    requires Sound(entries, lower, p) && Merged(entries, lower, p, |p|, 0)
    ensures RootsMatch(entries, lower, p)
  {
    forall a, b | 0 <= a < |p| && 0 <= b < |p| ensures Root(p, a) == Root(p, b) <==> Connected(entries, lower, a, b) {
      RootsAreComponents(entries, lower, p, a, b);
    }
  }

  /** The double loop: unions every linked pair, in order. */
  method MergeLinked(entries: seq<Entry>, lower: Fold) returns (parent: array<nat>)
    ensures fresh(parent) && RootsMatch(entries, lower, parent[..])
  {
    parent := new nat[|entries|](i => i);
    IdentityIsSound(entries, lower, parent[..]);
    for i := 0 to |entries|
      invariant Sound(entries, lower, parent[..]) && Merged(entries, lower, parent[..], i, 0)
    {
      MergeRow(entries, lower, parent, i);
    }
    AllMerged(entries, lower, parent[..]);
  }

  ghost predicate Listed(groups: seq<seq<nat>>, a: nat) {
    exists g :: 0 <= g < |groups| && a in groups[g]
  }

  /** The groups list every index exactly once, each group non-empty and increasing. */
  ghost predicate Partition(groups: seq<seq<nat>>, n: nat) {
    && (forall g :: 0 <= g < |groups| ==> groups[g] != [])
    && (forall g, k :: 0 <= g < |groups| && 0 <= k < |groups[g]| ==> groups[g][k] < n)
    && (forall g, k, l :: 0 <= g < |groups| && 0 <= k < l < |groups[g]| ==> groups[g][k] < groups[g][l])
    && (forall a :: 0 <= a < n ==> Listed(groups, a))
    && (forall g, g' :: 0 <= g < g' < |groups| ==> forall a :: a in groups[g] ==> a !in groups[g'])
  }

  /** Two indices lie in one group exactly when a chain of links joins them. */
  ghost predicate Components(entries: seq<Entry>, lower: Fold, groups: seq<seq<nat>>) {
    && Partition(groups, |entries|)
    && forall g, a, b :: 0 <= g < |groups| && a in groups[g] && 0 <= b < |entries| ==>
         (b in groups[g] <==> Connected(entries, lower, a, b))
  }

  /** The group of root `r`: indices below `n` with that root, increasing. */
  ghost predicate GroupOf(group: seq<nat>, p: seq<nat>, r: nat, n: nat)
    requires Forest(p) && n <= |p|
  {
    && (forall k :: 0 <= k < |group| ==> group[k] < n && Root(p, group[k]) == r)
    && (forall k, l :: 0 <= k < l < |group| ==> group[k] < group[l])
  }

  ghost predicate Grouped(groups: map<nat, seq<nat>>, p: seq<nat>, n: nat)
    requires Forest(p) && n <= |p|
  {
    && (forall r :: r in groups ==> groups[r] != [] && GroupOf(groups[r], p, r, n))
    && (forall a :: 0 <= a < n ==> Root(p, a) in groups && a in groups[Root(p, a)])
  }

  ghost predicate SameRoots(p: seq<nat>, q: seq<nat>)
    requires Forest(p) && Forest(q)
  {
    |p| == |q| && forall a :: 0 <= a < |p| ==> Root(q, a) == Root(p, a)
  }

  lemma GroupKeeps(group: seq<nat>, p: seq<nat>, q: seq<nat>, r: nat, i: nat)
    requires Forest(p) && Forest(q) && SameRoots(p, q) && i < |p| && GroupOf(group, p, r, i)
    ensures GroupOf(group, q, r, i + 1)
  {
  }

  lemma GroupPush(group: seq<nat>, p: seq<nat>, q: seq<nat>, i: nat)
    requires Forest(p) && Forest(q) && SameRoots(p, q) && i < |p| && GroupOf(group, p, Root(p, i), i)
    ensures GroupOf(group + [i], q, Root(p, i), i + 1)
  {
  }

  lemma GroupStep(groups: map<nat, seq<nat>>, p: seq<nat>, q: seq<nat>, i: nat)
    requires Forest(p) && Forest(q) && SameRoots(p, q) && i < |p| && Grouped(groups, p, i)
    ensures var root := Root(p, i);
            Grouped(groups[root := (if root in groups then groups[root] else []) + [i]], q, i + 1)
  {
    var root := Root(p, i);
    var members := if root in groups then groups[root] else [];
    var groups' := groups[root := members + [i]];
    forall r | r in groups' ensures groups'[r] != [] && GroupOf(groups'[r], q, r, i + 1) {
      if r == root {
        GroupPush(members, p, q, i);
      } else {
        GroupKeeps(groups[r], p, q, r, i);
      }
    }
    forall a | 0 <= a < i + 1 ensures Root(q, a) in groups' && a in groups'[Root(q, a)] {
      GroupCovers(groups, p, q, i, members, a);
    }
  }

  lemma GroupCovers(groups: map<nat, seq<nat>>, p: seq<nat>, q: seq<nat>, i: nat, members: seq<nat>, a: nat)
    requires Forest(p) && Forest(q) && SameRoots(p, q) && i < |p| && a <= i && Grouped(groups, p, i)
    requires members == if Root(p, i) in groups then groups[Root(p, i)] else []
    ensures var groups' := groups[Root(p, i) := members + [i]];
            Root(q, a) in groups' && a in groups'[Root(q, a)]
  {
    assert Root(q, a) == Root(p, a);
    if a == i { assert (members + [i])[|members|] == i; }
  }

  method GroupByRoot(parent: array<nat>) returns (groups: map<nat, seq<nat>>)
    requires Forest(parent[..])
    modifies parent
    ensures Forest(parent[..])
    ensures forall a :: 0 <= a < parent.Length ==> Root(parent[..], a) == old(Root(parent[..], a))
    ensures Grouped(groups, parent[..], parent.Length)
  {
    groups := map[];
    for i := 0 to parent.Length
      invariant Forest(parent[..])
      invariant forall a :: 0 <= a < parent.Length ==> Root(parent[..], a) == old(Root(parent[..], a))
      invariant Grouped(groups, parent[..], i)
    {
      ghost var p := parent[..];
      var root := Find(parent, i);
      var members := if root in groups then groups[root] else [];
      GroupStep(groups, p, parent[..], i);
      groups := groups[root := members + [i]];
    }
  }

  lemma ValuesPartition(groups: map<nat, seq<nat>>, p: seq<nat>, order: seq<nat>, values: seq<seq<nat>>)
    requires Forest(p) && Grouped(groups, p, |p|)
    requires |order| == |values|
    requires forall g :: 0 <= g < |order| ==> order[g] in groups && values[g] == groups[order[g]]
    requires forall g, g' :: 0 <= g < g' < |order| ==> order[g] != order[g']
    requires forall r :: r in groups ==> r in order
    ensures Partition(values, |p|)
    ensures forall g, a, b :: 0 <= g < |values| && a in values[g] && 0 <= b < |p| ==>
              (b in values[g] <==> Root(p, a) == Root(p, b))
  {
    forall a | 0 <= a < |p| ensures Listed(values, a) {
      var g :| 0 <= g < |order| && order[g] == Root(p, a);
      assert a in values[g];
    }
    forall g, a | 0 <= g < |values| && a in values[g] ensures a < |p| && Root(p, a) == order[g] {
      var k :| 0 <= k < |values[g]| && values[g][k] == a;
      assert groups[order[g]][k] == a;
    }
  }

  /** `groups.into_values()`: the groups in some arbitrary order. */
  method IntoValues(groups: map<nat, seq<nat>>, ghost p: seq<nat>) returns (values: seq<seq<nat>>)
    requires Forest(p) && Grouped(groups, p, |p|)
    ensures Partition(values, |p|)
    ensures forall g, a, b :: 0 <= g < |values| && a in values[g] && 0 <= b < |p| ==>
              (b in values[g] <==> Root(p, a) == Root(p, b))
  {
    values := [];
    var keys := groups.Keys;
    ghost var order: seq<nat> := [];
    while keys != {}
      invariant keys <= groups.Keys
      invariant |order| == |values|
      invariant forall g :: 0 <= g < |order| ==>
                order[g] in groups && values[g] == groups[order[g]] && order[g] !in keys
      invariant forall g, g' :: 0 <= g < g' < |order| ==> order[g] != order[g']
      invariant forall r :: r in groups.Keys && r !in keys ==> r in order
      decreases |keys|
    {
      var r :| r in keys;
      values := values + [groups[r]];
      order := order + [r];
      keys := keys - {r};
    }
    ValuesPartition(groups, p, order, values);
  }

  /** A duplicate-free listing, in some order, of the tags every member carries. */
  ghost predicate Lists(list: seq<string>, s: set<string>) {
    && (forall k, l :: 0 <= k < l < |list| ==> list[k] != list[l])
    && (forall t :: t in list <==> t in s)
  }

  function CommonTags(entries: seq<Entry>, lower: Fold, members: seq<nat>): (s: set<string>)
    requires members != [] && forall k :: 0 <= k < |members| ==> members[k] < |entries|
    ensures forall t :: t in s <==> forall k :: 0 <= k < |members| ==> t in TagSet(entries[members[k]], lower)
  {
    set t | t in TagSet(entries[members[0]], lower)
            && forall k :: 0 <= k < |members| ==> t in TagSet(entries[members[k]], lower)
  }

  method SharedTags(entries: seq<Entry>, lower: Fold, members: seq<nat>) returns (shared: seq<string>)
    requires members != [] && forall k :: 0 <= k < |members| ==> members[k] < |entries|
    ensures Lists(shared, CommonTags(entries, lower, members))
  {
    shared := [];
    var first := TagSet(entries[members[0]], lower);
    var rest := first;
    while rest != {}
      invariant rest <= first
      invariant forall k, l :: 0 <= k < l < |shared| ==> shared[k] != shared[l]
      invariant forall t :: t in shared <==> t in CommonTags(entries, lower, members) && t !in rest
      decreases |rest|
    {
      var tag :| tag in rest;
      rest := rest - {tag};
      if forall k :: 0 <= k < |members| ==> tag in TagSet(entries[members[k]], lower) {
        shared := shared + [tag];
      }
    }
  }

  ghost predicate Describes(entries: seq<Entry>, lower: Fold, c: Cluster, members: seq<nat>)
    requires members != [] && forall k :: 0 <= k < |members| ==> members[k] < |entries|
  {
    && |c.entryIds| == |members|
    && (forall k :: 0 <= k < |members| ==> c.entryIds[k] == entries[members[k]].id)
    && Lists(c.sharedTags, CommonTags(entries, lower, members))
  }

  /** Cluster by cluster, the components listed in `groups`. */
  ghost predicate DescribesAll(entries: seq<Entry>, lower: Fold, clusters: seq<Cluster>, groups: seq<seq<nat>>) {
    && Components(entries, lower, groups) && |clusters| == |groups|
    && forall g :: 0 <= g < |groups| ==> Describes(entries, lower, clusters[g], groups[g])
  }

  /**
   The clusters are exactly the connected components of the pairwise test, each listing its
   members' ids in entry order and the tags all of them carry.
   */
  method ClusterByTags(entries: seq<Entry>, lower: Fold) returns (clusters: seq<Cluster>)
    ensures exists groups :: DescribesAll(entries, lower, clusters, groups)
  {
    var parent := MergeLinked(entries, lower);
    ghost var p := parent[..];
    var byRoot := GroupByRoot(parent);
    var values := IntoValues(byRoot, parent[..]);
    clusters := [];
    for g := 0 to |values|
      invariant |clusters| == g
      invariant forall h :: 0 <= h < g ==> Describes(entries, lower, clusters[h], values[h])
    {
      var members := values[g];
      var ids := seq(|members|, k requires 0 <= k < |members| && members[k] < |entries| => entries[members[k]].id);
      var shared := SharedTags(entries, lower, members);
      clusters := clusters + [Cluster(ids, shared)];
    }
    assert DescribesAll(entries, lower, clusters, values);
  }

  // ---- What the pairwise test measures ----

  /** Some shared tag is listed twice by the later entry. */
  ghost predicate RepeatsShared(tags: set<string>, list: seq<string>, lower: Fold) {
    exists k, l :: 0 <= k < l < |list| && lower(list[k]) == lower(list[l]) && lower(list[k]) in tags
  }

  ghost function LowerSet(list: seq<string>, lower: Fold): set<string> {
    set k | 0 <= k < |list| :: lower(list[k])
  }

  lemma LowerSetCons(list: seq<string>, lower: Fold)
    requires list != []
    ensures LowerSet(list, lower) == LowerSet(list[1..], lower) + {lower(list[0])}
  {
    var rest := list[1..];
    forall x | x in LowerSet(rest, lower) ensures x in LowerSet(list, lower) {
      var k :| 0 <= k < |rest| && lower(rest[k]) == x;
      assert list[k + 1] == rest[k];
    }
    forall x | x in LowerSet(list, lower) ensures x in LowerSet(rest, lower) + {lower(list[0])} {
      var k :| 0 <= k < |list| && lower(list[k]) == x;
      if k > 0 { assert rest[k - 1] == list[k]; }
    }
  }

  lemma InsertShared(tags: set<string>, small: set<string>, t: string)
    ensures |tags * (small + {t})| == |tags * small| + if t in tags && t !in small then 1 else 0
    ensures t in tags && t in small ==> |tags * small| >= 1
  {
    assert tags * (small + {t}) == if t in tags then tags * small + {t} else tags * small;
    if t in tags && t in small {
      assert tags * small + {t} == tags * small;
      assert t in tags * small;
    }
  }

  lemma RepeatsCons(tags: set<string>, list: seq<string>, lower: Fold)
    requires list != []
    ensures RepeatsShared(tags, list, lower) <==>
            RepeatsShared(tags, list[1..], lower) || lower(list[0]) in tags * LowerSet(list[1..], lower)
  {
    var rest, t := list[1..], lower(list[0]);
    if RepeatsShared(tags, rest, lower) {
      var k, l :| 0 <= k < l < |rest| && lower(rest[k]) == lower(rest[l]) && lower(rest[k]) in tags;
      assert list[k + 1] == rest[k] && list[l + 1] == rest[l];
    }
    if t in tags * LowerSet(rest, lower) {
      var k :| 0 <= k < |rest| && lower(rest[k]) == t;
      assert list[k + 1] == rest[k];
    }
    if RepeatsShared(tags, list, lower) {
      var k, l :| 0 <= k < l < |list| && lower(list[k]) == lower(list[l]) && lower(list[k]) in tags;
      assert rest[l - 1] == list[l];
      if k > 0 { assert rest[k - 1] == list[k]; }
    }
  }

  lemma {:induction false} CountBounds(tags: set<string>, list: seq<string>, lower: Fold)
    ensures SharedCount(tags, list, lower) >= |tags * LowerSet(list, lower)|
    ensures !RepeatsShared(tags, list, lower) ==>
              SharedCount(tags, list, lower) == |tags * LowerSet(list, lower)|
    ensures RepeatsShared(tags, list, lower) ==> SharedCount(tags, list, lower) >= 2
  {
    if list == [] {
      assert tags * LowerSet(list, lower) == {};
    } else {
      var rest, t := list[1..], lower(list[0]);
      CountBounds(tags, rest, lower);
      LowerSetCons(list, lower);
      RepeatsCons(tags, list, lower);
      InsertShared(tags, LowerSet(rest, lower), t);
    }
  }

  /**
   The test asks for two tag occurrences, not two shared tags: it departs from "the entries
   share at least two tags" exactly when they share fewer than two and the later entry repeats
   a shared one.
   */
  lemma LinkMeasuresSharedTags(entries: seq<Entry>, lower: Fold, i: nat, j: nat)
    requires i < j < |entries|
    ensures
      var common := TagSet(entries[i], lower) * TagSet(entries[j], lower);
      (Link(entries, lower, i, j) <==> |common| >= MIN_SHARED_TAGS) <==>
      !(|common| < MIN_SHARED_TAGS && RepeatsShared(TagSet(entries[i], lower), entries[j].tags, lower))
  {
    CountBounds(TagSet(entries[i], lower), entries[j].tags, lower);
    assert TagSet(entries[j], lower) == LowerSet(entries[j].tags, lower);
  }

  /** So the test depends on the order of the entries: listing a tag twice counts only later. */
  lemma LinkDependsOnOrder()
    ensures var one, twice, id: Fold := Entry("m1", ["a"]), Entry("m2", ["a", "a"]), (s: string) => s;
            Link([one, twice], id, 0, 1) && !Link([twice, one], id, 0, 1)
  {
    var one, twice := Entry("m1", ["a"]), Entry("m2", ["a", "a"]);
    var id: Fold := s => s;
    assert TagSet(one, id) == {"a"} by { assert one.tags[0] == "a"; }
    assert TagSet(twice, id) == {"a"} by { assert twice.tags[0] == "a"; }
    assert ["a", "a"][1..] == ["a"] && ["a"][1..] == [];
    assert SharedCount({"a"}, [], id) == 0;
    assert SharedCount({"a"}, ["a"], id) == 1;
    assert SharedCount({"a"}, ["a", "a"], id) == 2;
  }
}
