/**
 Union-find with path compression over an array, the grouping of memories by what they say that it computes, and
 which of the groups span projects.
 */
module MemoryClusters {
  import opened Numbers
  import opened Sets

  // ------------------------------------------------------------------ forests

  /** Every position points at one in range, and `depth` falls along every pointer but a root's own. */
  ghost predicate Forest(parent: seq<nat>, depth: seq<nat>) {
    && |depth| == |parent|
    && (forall i :: 0 <= i < |parent| ==> parent[i] < |parent|)
    && (forall i :: 0 <= i < |parent| && parent[i] != i ==> depth[parent[i]] < depth[i])
  }

  /** The root a position leads to. */
  ghost function RootOf(parent: seq<nat>, depth: seq<nat>, at: nat): (r: nat)
    requires Forest(parent, depth) && at < |parent|
    ensures r < |parent| && parent[r] == r
    ensures r == at || depth[r] < depth[at]
    decreases depth[at]
  {
    if parent[at] == at then at else RootOf(parent, depth, parent[at])
  }

  /** Pointing a position straight at its root changes nobody's root. */
  lemma {:induction false} CompressionKeepsRoots(parent: seq<nat>, depth: seq<nat>, at: nat, i: nat)
    requires Forest(parent, depth) && at < |parent| && i < |parent|
    ensures Forest(parent[at := RootOf(parent, depth, at)], depth)
    ensures RootOf(parent[at := RootOf(parent, depth, at)], depth, i) == RootOf(parent, depth, i)
    decreases depth[i]
  {
    var parent' := parent[at := RootOf(parent, depth, at)];
    if parent[i] != i && i != at {
      CompressionKeepsRoots(parent, depth, at, parent[i]);
    }
  }

  /** Depths once the tree of `a` hangs below `b`. */
  ghost function Hung(parent: seq<nat>, depth: seq<nat>, a: nat, b: nat): (r: seq<nat>)
    requires Forest(parent, depth) && a < |parent| && b < |parent|
    ensures |r| == |depth|
  {
    seq(|depth|, i requires 0 <= i < |depth| => if RootOf(parent, depth, i) == a then depth[i] + depth[b] + 1 else depth[i])
  }

  lemma LinkingIsAForest(parent: seq<nat>, depth: seq<nat>, a: nat, b: nat)
    requires Forest(parent, depth) && a < |parent| && b < |parent| && parent[a] == a && parent[b] == b && a != b
    ensures Forest(parent[a := b], Hung(parent, depth, a, b))
  {
  }

  /** Hanging root `a` below root `b` moves exactly the tree of `a` to `b`. */
  lemma {:induction false} LinkingMergesTwoTrees(parent: seq<nat>, depth: seq<nat>, a: nat, b: nat, i: nat)
    requires Forest(parent, depth) && a < |parent| && b < |parent| && parent[a] == a && parent[b] == b && a != b && i < |parent|
    ensures Forest(parent[a := b], Hung(parent, depth, a, b))
    ensures RootOf(parent[a := b], Hung(parent, depth, a, b), i)
            == if RootOf(parent, depth, i) == a then b else RootOf(parent, depth, i)
    decreases depth[i]
  {
    LinkingIsAForest(parent, depth, a, b);
    if parent[i] != i {
      LinkingMergesTwoTrees(parent, depth, a, b, parent[i]);
    } else if i == a {
      assert parent[a := b][b] == b;
    }
  }

  // ------------------------------------------------------------------ chains of pairs

  type Pair = (nat, nat)

  ghost predicate Joined(pairs: set<Pair>, i: nat, j: nat) {
    (i, j) in pairs || (j, i) in pairs
  }

  /** `path` leads from `i` to `j` along joined pairs, either way round. */
  ghost predicate IsChain(pairs: set<Pair>, path: seq<nat>, i: nat, j: nat) {
    && path != [] && path[0] == i && path[|path| - 1] == j
    && forall k :: 0 <= k < |path| - 1 ==> Joined(pairs, path[k], path[k + 1])
  }

  ghost predicate Connected(pairs: set<Pair>, i: nat, j: nat) {
    exists path :: IsChain(pairs, path, i, j)
  }

  lemma ConnectedToItself(pairs: set<Pair>, i: nat)
    ensures Connected(pairs, i, i)
  {
    assert IsChain(pairs, [i], i, i);
  }

  lemma ConnectedByAPair(pairs: set<Pair>, i: nat, j: nat)
    requires Joined(pairs, i, j)
    ensures Connected(pairs, i, j)
  {
    assert IsChain(pairs, [i, j], i, j);
  }

  lemma ConnectedBack(pairs: set<Pair>, i: nat, j: nat)
    requires Connected(pairs, i, j)
    ensures Connected(pairs, j, i)
  {
    var path :| IsChain(pairs, path, i, j);
    var n := |path|;
    var back := seq(n, k requires 0 <= k < n => path[n - 1 - k]);
    forall k | 0 <= k < n - 1 ensures Joined(pairs, back[k], back[k + 1]) {
      assert Joined(pairs, path[n - 2 - k], path[n - 2 - k + 1]);
    }
    assert IsChain(pairs, back, j, i);
  }

  lemma ConnectedThrough(pairs: set<Pair>, i: nat, j: nat, k: nat)
    requires Connected(pairs, i, j) && Connected(pairs, j, k)
    ensures Connected(pairs, i, k)
  {
    var p :| IsChain(pairs, p, i, j);
    var q :| IsChain(pairs, q, j, k);
    var path := p + q[1..];
    forall x | 0 <= x < |path| - 1 ensures Joined(pairs, path[x], path[x + 1]) {
      if x >= |p| - 1 {
        assert path[x] == q[x - |p| + 1] && path[x + 1] == q[x - |p| + 2];
        assert Joined(pairs, q[x - |p| + 1], q[x - |p| + 1 + 1]);
      } else {
        assert path[x] == p[x] && path[x + 1] == p[x + 1];
      }
    }
    assert IsChain(pairs, path, i, k);
  }

  lemma ConnectedWithMore(pairs: set<Pair>, more: set<Pair>, i: nat, j: nat)
    requires Connected(pairs, i, j) && pairs <= more
    ensures Connected(more, i, j)
  {
    var path :| IsChain(pairs, path, i, j);
    assert IsChain(more, path, i, j);
  }

  /** `reps` gives every position its group's representative, and the groups are those the pairs connect. */
  ghost predicate Represents(reps: seq<nat>, pairs: set<Pair>) {
    && (forall p :: p in pairs ==> p.0 < |reps| && p.1 < |reps| && reps[p.0] == reps[p.1])
    && (forall i :: 0 <= i < |reps| ==> Connected(pairs, i, reps[i]))
  }

  /** Along a chain of pairs that agree, the representative never changes. */
  lemma {:induction false} ChainKeepsRepresentative(reps: seq<nat>, pairs: set<Pair>, path: seq<nat>, i: nat, j: nat)
    requires Represents(reps, pairs) && IsChain(pairs, path, i, j) && i < |reps|
    ensures j < |reps| && reps[i] == reps[j]
    decreases |path|
  {
    if |path| > 1 {
      assert Joined(pairs, path[0], path[0 + 1]);
      var rest := path[1..];
      forall k | 0 <= k < |rest| - 1 ensures Joined(pairs, rest[k], rest[k + 1]) {
        assert Joined(pairs, path[k + 1], path[k + 1 + 1]);
      }
      ChainKeepsRepresentative(reps, pairs, rest, path[1], j);
    }
  }

  /** Two positions have one representative exactly when a chain of pairs connects them. */
  lemma SameRepresentativeMeansConnected(reps: seq<nat>, pairs: set<Pair>, i: nat, j: nat)
    requires Represents(reps, pairs) && i < |reps| && j < |reps|
    ensures reps[i] == reps[j] <==> Connected(pairs, i, j)
  {
    if reps[i] == reps[j] {
      ConnectedBack(pairs, j, reps[j]);
      ConnectedThrough(pairs, i, reps[i], j);
    }
    if Connected(pairs, i, j) {
      var path :| IsChain(pairs, path, i, j);
      ChainKeepsRepresentative(reps, pairs, path, i, j);
    }
  }

  /** The order the pairs were joined in decides who represents a group, not who is in it. */
  lemma JoinOrderDoesNotMatter(reps: seq<nat>, others: seq<nat>, pairs: set<Pair>, i: nat, j: nat)
    requires |others| == |reps| && Represents(reps, pairs) && Represents(others, pairs) && i < |reps| && j < |reps|
    ensures reps[i] == reps[j] <==> others[i] == others[j]
  {
    SameRepresentativeMeansConnected(reps, pairs, i, j);
    SameRepresentativeMeansConnected(others, pairs, i, j);
  }

  /** The representatives once the groups of `first` and `second` are one. */
  ghost function Merged(reps: seq<nat>, first: nat, second: nat): (r: seq<nat>)
    requires first < |reps| && second < |reps|
    ensures |r| == |reps|
    ensures forall i :: 0 <= i < |reps| ==> r[i] == if reps[i] == reps[first] then reps[second] else reps[i]
  {
    seq(|reps|, i requires 0 <= i < |reps| => if reps[i] == reps[first] then reps[second] else reps[i])
  }

  lemma MergingRepresents(reps: seq<nat>, pairs: set<Pair>, first: nat, second: nat)
    requires Represents(reps, pairs) && first < |reps| && second < |reps|
    ensures Represents(Merged(reps, first, second), pairs + {(first, second)})
  {
    var more := pairs + {(first, second)};
    var merged := Merged(reps, first, second);
    forall i | 0 <= i < |reps| ensures Connected(more, i, merged[i]) {
      ConnectedWithMore(pairs, more, i, reps[i]);
      if reps[i] == reps[first] {
        ConnectedWithMore(pairs, more, first, reps[first]);
        ConnectedBack(more, first, reps[first]);
        ConnectedThrough(more, i, reps[first], first);
        ConnectedByAPair(more, first, second);
        ConnectedThrough(more, i, first, second);
        ConnectedWithMore(pairs, more, second, reps[second]);
        ConnectedThrough(more, i, second, reps[second]);
      }
    }
  }

  // ------------------------------------------------------------------ the structure

  class Clusters {
    const parent: array<nat>
    ghost var depth: seq<nat>
    /** Every pair joined so far. */
    ghost var joined: set<Pair>

    ghost predicate Valid()
      reads this, parent
    {
      Forest(parent[..], depth) && Represents(Reps(), joined)
    }

    ghost function Reps(): (r: seq<nat>)
      requires Forest(parent[..], depth)
      reads this, parent
      ensures |r| == parent.Length
    {
      seq(parent.Length, i requires 0 <= i < parent.Length reads this, parent requires Forest(parent[..], depth) => RootOf(parent[..], depth, i))
    }

    constructor (size: nat)
      ensures Valid() && fresh(parent) && parent.Length == size && joined == {}
      ensures Reps() == seq(size, i => i)
    {
      parent := new nat[size](i => i);
      depth := seq(size, i => 0);
      joined := {};
      new;
      forall i: nat | i < size ensures RootOf(parent[..], depth, i) == i && Connected(joined, i, i) {
        ConnectedToItself(joined, i);
      }
    }

    /** The representative of `at`, with every position on the way pointed straight at it. */
    method Root(at: nat) returns (root: nat)
      requires Valid() && at < parent.Length
      modifies parent
      ensures Valid() && Reps() == old(Reps()) && root == Reps()[at] && parent[at] == root
      decreases depth[at]
    {
      if parent[at] != at {
        ghost var reps := Reps();
        assert reps[at] == reps[parent[at]];
        root := Root(parent[at]);
        ghost var before := parent[..];
        assert RootOf(before, depth, at) == Reps()[at] == reps[at] == root;
        parent[at] := root;
        assert parent[..] == before[at := root];
        forall i: nat | i < parent.Length ensures Forest(parent[..], depth) && RootOf(parent[..], depth, i) == RootOf(before, depth, i) {
          CompressionKeepsRoots(before, depth, at, i);
        }
        assert Reps() == reps;
      }
      root := parent[at];
    }

    /** The groups of the two positions become one; no other position moves. */
    method Join(first: nat, second: nat)
      requires Valid() && first < parent.Length && second < parent.Length
      modifies this`depth, this`joined, parent
      ensures Valid() && Reps() == Merged(old(Reps()), first, second)
      ensures joined == old(joined) + {(first, second)}
    {
      var a := Root(first);
      var b := Root(second);
      Link(a, b, first, second);
    }

    method Link(a: nat, b: nat, ghost first: nat, ghost second: nat)
      requires Valid() && first < parent.Length && second < parent.Length && a == Reps()[first] && b == Reps()[second]
      modifies this`depth, this`joined, parent
      ensures Valid() && Reps() == Merged(old(Reps()), first, second)
      ensures joined == old(joined) + {(first, second)}
    {
      ghost var reps := Reps();
      MergingRepresents(reps, joined, first, second);
      ghost var before, depthBefore := parent[..], depth;
      assert a == RootOf(before, depth, first) && b == RootOf(before, depth, second);
      parent[a] := b;
      assert parent[..] == before[a := b];
      joined := joined + {(first, second)};
      if a != b {
        LinkingIsAForest(before, depthBefore, a, b);
        depth := Hung(before, depthBefore, a, b);
        forall i: nat | i < parent.Length ensures Reps()[i] == Merged(reps, first, second)[i] {
          LinkingMergesTwoTrees(before, depthBefore, a, b, i);
        }
      } else {
        assert parent[..] == before;
      }
      assert Reps() == Merged(reps, first, second);
    }

    /** Every position, in order, under its representative. */
    method Members() returns (byRoot: map<nat, seq<nat>>)
      requires Valid()
      modifies parent
      ensures Valid() && Reps() == old(Reps())
      ensures IsGrouping(byRoot, Reps(), parent.Length)
    {
      byRoot := map[];
      for at := 0 to parent.Length
        invariant Valid() && Reps() == old(Reps())
        invariant IsGrouping(byRoot, Reps(), at)
      {
        var root := Root(at);
        GroupingGrows(byRoot, Reps(), at);
        byRoot := if root in byRoot then byRoot[root := byRoot[root] + [at]] else byRoot[root := [at]];
      }
    }
  }

  /** The first `n` positions, each listed once, in order, under its representative. */
  ghost predicate IsGrouping(byRoot: map<nat, seq<nat>>, reps: seq<nat>, n: nat)
    requires n <= |reps|
  {
    && (forall i :: 0 <= i < n ==> reps[i] in byRoot && i in byRoot[reps[i]])
    && (forall r :: r in byRoot ==> byRoot[r] != [])
    && (forall r, k :: r in byRoot && 0 <= k < |byRoot[r]| ==> byRoot[r][k] < n && reps[byRoot[r][k]] == r)
    && (forall r, j, k :: r in byRoot && 0 <= j < k < |byRoot[r]| ==> byRoot[r][j] < byRoot[r][k])
  }

  ghost function Grown(byRoot: map<nat, seq<nat>>, root: nat, at: nat): map<nat, seq<nat>> {
    if root in byRoot then byRoot[root := byRoot[root] + [at]] else byRoot[root := [at]]
  }

  lemma GroupGrows(byRoot: map<nat, seq<nat>>, reps: seq<nat>, at: nat, r: nat)
    requires at < |reps| && IsGrouping(byRoot, reps, at) && r in Grown(byRoot, reps[at], at)
    ensures var group := Grown(byRoot, reps[at], at)[r];
            && group != [] && (r == reps[at] ==> group[|group| - 1] == at)
            && (forall k :: 0 <= k < |group| ==> group[k] <= at && reps[group[k]] == r)
            && (forall j, k :: 0 <= j < k < |group| ==> group[j] < group[k])
  {
  }

  lemma GroupingGrows(byRoot: map<nat, seq<nat>>, reps: seq<nat>, at: nat)
    requires at < |reps| && IsGrouping(byRoot, reps, at)
    ensures IsGrouping(Grown(byRoot, reps[at], at), reps, at + 1)
  {
    var grown := Grown(byRoot, reps[at], at);
    forall r | r in grown {
      GroupGrows(byRoot, reps, at, r);
    }
    forall i | 0 <= i <= at ensures reps[i] in grown && i in grown[reps[i]] {
      if i < at {
        assert i in byRoot[reps[i]];
      }
    }
  }

  // ------------------------------------------------------------------ memories

  /** A memory by the meaningful words it uses and the project it belongs to. */
  datatype Memory = Memory(terms: set<string>, project: string)

  const MIN_SHARED_TERMS: nat := 5
  const SAME_TOPIC_OVERLAP: real := 0.45
  const SAME_TOPIC_SIMILARITY: real := 0.15

  function Share(part: nat, whole: nat): real {
    if whole == 0 then 0.0 else part as real / whole as real
  }

  predicate SayTheSame(a: Memory, b: Memory) {
    var shared := |a.terms * b.terms|;
    && shared >= MIN_SHARED_TERMS
    && Share(shared, Min(|a.terms|, |b.terms|)) >= SAME_TOPIC_OVERLAP
    && Share(shared, |a.terms + b.terms|) >= SAME_TOPIC_SIMILARITY
  }

  /** Which of two memories is looked at first makes no difference. */
  lemma SayingTheSameIsMutual(a: Memory, b: Memory)
    ensures SayTheSame(a, b) <==> SayTheSame(b, a)
  {
    assert a.terms * b.terms == b.terms * a.terms;
    assert a.terms + b.terms == b.terms + a.terms;
  }

  /** At least five words shared, forty-five in a hundred of the shorter memory's and fifteen in a hundred of all they use. */
  lemma SayTheSameMeans(a: Memory, b: Memory)
    ensures var shared := |a.terms * b.terms|;
            SayTheSame(a, b) <==>
              && shared >= 5
              && (100 * shared >= 45 * |a.terms| || 100 * shared >= 45 * |b.terms|)
              && 100 * shared >= 15 * |a.terms + b.terms|
  {
    var shared := |a.terms * b.terms|;
    if shared >= 5 {
      SubsetSize(a.terms * b.terms, a.terms);
      SubsetSize(a.terms * b.terms, b.terms);
      SubsetSize(a.terms, a.terms + b.terms);
      ShareMeans(shared, Min(|a.terms|, |b.terms|), 45);
      ShareMeans(shared, |a.terms + b.terms|, 15);
    }
  }

  lemma ShareMeans(part: nat, whole: nat, percent: nat)
    requires whole > 0
    ensures Share(part, whole) >= percent as real / 100.0 <==> 100 * part >= percent * whole
  {
    var p, w, c := part as real, whole as real, percent as real;
    assert (100 * part) as real == 100.0 * p && (percent * whole) as real == c * w;
    if p / w >= c / 100.0 {
      assert p / w * w >= c / 100.0 * w;
    } else {
      assert p / w * w < c / 100.0 * w;
    }
  }

  /** Two different memories say the same. */
  ghost predicate Alike(memories: seq<Memory>, i: nat, j: nat) {
    i < |memories| && j < |memories| && i != j && SayTheSame(memories[i], memories[j])
  }

  /** A chain of memories from `i` to `j`, each saying the same as the next. */
  ghost predicate SaysChain(memories: seq<Memory>, path: seq<nat>, i: nat, j: nat) {
    && path != [] && path[0] == i && path[|path| - 1] == j
    && forall k :: 0 <= k < |path| - 1 ==> Alike(memories, path[k], path[k + 1])
  }

  ghost predicate Related(memories: seq<Memory>, i: nat, j: nat) {
    exists path :: SaysChain(memories, path, i, j)
  }

  /** The pairs of the first `n` memories, and of memory `n` with those before `m`, that say the same. */
  ghost function SamePairs(memories: seq<Memory>, n: nat, m: nat): set<Pair>
    requires n <= |memories| && m <= |memories|
  {
    set i, j | 0 <= i < j < |memories| && (i < n || (i == n && j < m)) && SayTheSame(memories[i], memories[j]) :: (i, j)
  }

  /** A chain of saying the same is a chain of the pairs joined, and the other way round. */
  lemma RelatedMeansConnected(memories: seq<Memory>, i: nat, j: nat)
    requires i < |memories| && j < |memories|
    ensures Related(memories, i, j) <==> Connected(SamePairs(memories, |memories|, 0), i, j)
  {
    var pairs := SamePairs(memories, |memories|, 0);
    if Related(memories, i, j) {
      var path :| SaysChain(memories, path, i, j);
      forall k | 0 <= k < |path| - 1 ensures Joined(pairs, path[k], path[k + 1]) {
        assert Alike(memories, path[k], path[k + 1]);
        SayingTheSameIsMutual(memories[path[k]], memories[path[k + 1]]);
      }
      assert IsChain(pairs, path, i, j);
    }
    if Connected(pairs, i, j) {
      var path :| IsChain(pairs, path, i, j);
      forall k | 0 <= k < |path| - 1 ensures Alike(memories, path[k], path[k + 1]) {
        assert Joined(pairs, path[k], path[k + 1]);
        SayingTheSameIsMutual(memories[path[k]], memories[path[k + 1]]);
      }
      assert SaysChain(memories, path, i, j);
    }
  }

  lemma SamePairsGrow(memories: seq<Memory>, at: nat, later: nat)
    requires at < later < |memories|
    ensures SamePairs(memories, at, later + 1)
            == SamePairs(memories, at, later) + if SayTheSame(memories[at], memories[later]) then {(at, later)} else {}
  {
  }

  lemma SamePairsTurn(memories: seq<Memory>, at: nat)
    requires at < |memories|
    ensures SamePairs(memories, at, at + 1) == SamePairs(memories, at, 0)
    ensures SamePairs(memories, at, |memories|) == SamePairs(memories, at + 1, 0)
  {
  }

  /** Every two memories compared once, the later one after the earlier, and joined when they say the same. */
  method Compare(memories: seq<Memory>) returns (clusters: Clusters)
    ensures fresh(clusters) && fresh(clusters.parent) && clusters.Valid() && clusters.parent.Length == |memories|
    ensures clusters.joined == SamePairs(memories, |memories|, 0)
  {
    clusters := new Clusters(|memories|);
    for at := 0 to |memories|
      invariant fresh(clusters) && fresh(clusters.parent) && clusters.Valid() && clusters.parent.Length == |memories|
      invariant clusters.joined == SamePairs(memories, at, 0)
    {
      CompareWithLater(clusters, memories, at);
      SamePairsTurn(memories, at);
    }
  }

  method CompareWithLater(clusters: Clusters, memories: seq<Memory>, at: nat)
    requires clusters.Valid() && clusters.parent.Length == |memories| && at < |memories|
    requires clusters.joined == SamePairs(memories, at, 0)
    modifies clusters, clusters.parent
    ensures clusters.Valid() && clusters.joined == SamePairs(memories, at, |memories|)
  {
    SamePairsTurn(memories, at);
    for later := at + 1 to |memories|
      invariant clusters.Valid() && clusters.joined == SamePairs(memories, at, later)
    {
      SamePairsGrow(memories, at, later);
      if SayTheSame(memories[at], memories[later]) {
        clusters.Join(at, later);
      }
    }
  }

  ghost predicate InAGroup(groups: map<nat, seq<nat>>, i: nat) {
    exists r :: r in groups && i in groups[r]
  }

  /** Two positions are in one group exactly when a chain of memories that say the same connects them. */
  ghost predicate GroupsByTopic(groups: map<nat, seq<nat>>, memories: seq<Memory>) {
    && (forall i: nat :: i < |memories| ==> InAGroup(groups, i))
    && (forall r, k :: r in groups && 0 <= k < |groups[r]| ==> groups[r][k] < |memories|)
    && (forall r, j, k :: r in groups && 0 <= j < k < |groups[r]| ==> groups[r][j] < groups[r][k])
    && (forall r, s, i, j :: r in groups && s in groups && i in groups[r] && j in groups[s] ==>
          (r == s <==> Related(memories, i, j)))
  }

  lemma GroupingIsByTopic(groups: map<nat, seq<nat>>, reps: seq<nat>, memories: seq<Memory>)
    requires |reps| == |memories| && IsGrouping(groups, reps, |reps|) && Represents(reps, SamePairs(memories, |memories|, 0))
    ensures GroupsByTopic(groups, memories)
  {
    forall r, s, i, j | r in groups && s in groups && i in groups[r] && j in groups[s]
      ensures r == s <==> Related(memories, i, j)
    {
      assert reps[i] == r && reps[j] == s;
      SameRepresentativeMeansConnected(reps, SamePairs(memories, |memories|, 0), i, j);
      RelatedMeansConnected(memories, i, j);
    }
    forall i: nat | i < |memories| ensures InAGroup(groups, i) {
      assert reps[i] in groups && i in groups[reps[i]];
    }
  }

  function Projects(memories: seq<Memory>, members: seq<nat>): set<string>
    requires forall k :: 0 <= k < |members| ==> members[k] < |memories|
  {
    set k | 0 <= k < |members| :: memories[members[k]].project
  }

  /** `candidate_of`: a group is promoted when it has two memories, and they come from two projects. */
  predicate Promotes(memories: seq<Memory>, members: seq<nat>)
    requires forall k :: 0 <= k < |members| ==> members[k] < |memories|
  {
    |members| >= 2 && |Projects(memories, members)| >= 2
  }

  /** A set with one element besides `x` has two, and only then. */
  lemma TwoOrMore<T>(s: set<T>, x: T)
    requires x in s
    ensures |s| >= 2 <==> exists y :: y in s && y != x
  {
    var rest := s - {x};
    assert |s| == |rest| + 1;
    if |s| >= 2 {
      var y :| y in rest;
      assert y in s && y != x;
    }
    if y :| y in s && y != x {
      assert y in rest;
    }
  }

  /** A group spans several projects exactly when some member's project is not that of a given one. */
  lemma PromotesMeansTwoProjects(memories: seq<Memory>, members: seq<nat>, i: nat)
    requires forall k :: 0 <= k < |members| ==> members[k] < |memories|
    requires i in members
    ensures Promotes(memories, members) <==> exists j :: j in members && memories[j].project != memories[i].project
  {
    var projects := Projects(memories, members);
    var at :| 0 <= at < |members| && members[at] == i;
    assert memories[members[at]].project in projects;
    TwoOrMore(projects, memories[i].project);
    if exists y :: y in projects && y != memories[i].project {
      var y :| y in projects && y != memories[i].project;
      var k :| 0 <= k < |members| && memories[members[k]].project == y;
      assert members[k] in members;
    }
    if j :| j in members && memories[j].project != memories[i].project {
      var k :| 0 <= k < |members| && members[k] == j;
      assert memories[members[k]].project in projects;
    }
  }

  /**
   `recurring`: every memory is in exactly one group, groups follow what the memories say, and a
   memory is promoted exactly when another project has one related to it.
   */
  method Recurring(memories: seq<Memory>) returns (groups: map<nat, seq<nat>>, promoted: set<nat>)
    ensures GroupsByTopic(groups, memories)
    ensures promoted <= groups.Keys
    ensures forall r, i :: r in groups && i in groups[r] ==>
              (r in promoted <==> exists j :: j in groups[r] && memories[j].project != memories[i].project)
  {
    var clusters := Compare(memories);
    groups := clusters.Members();
    GroupingIsByTopic(groups, clusters.Reps(), memories);
    promoted := set r | r in groups && Promotes(memories, groups[r]);
    forall r, i | r in groups && i in groups[r]
      ensures r in promoted <==> exists j :: j in groups[r] && memories[j].project != memories[i].project
    {
      PromotesMeansTwoProjects(memories, groups[r], i);
    }
  }
}
