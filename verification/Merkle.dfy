/** The manifest commitment: the tree the registry service builds over published manifests,
    and the on-chain check of a path against its root.

    SHA-256 is a free constructor: leaf preimages (48 bytes) and node preimages (64 bytes)
    never collide with each other, two digests are equal only if their preimages are, and no
    preimage hashes to the all-zero digest. `Foreign` stands for the 32-byte strings that are
    not the hash of any leaf or node. */
module Merkle {
  type ManifestId = string
  type ContentHash = nat

  datatype Digest =
    | Zero
    | Foreign(tag: nat)
    | Leaf(id: ManifestId, content: ContentHash)
    | Node(left: Digest, right: Digest)

  type Level = s: seq<Digest> | s != [] witness [Zero]

  // ------------------------------------------------------------- off chain

  function Parent(level: Level, i: nat): Digest
    requires 2 * i < |level|
  {
    Node(level[2 * i], if 2 * i + 1 < |level| then level[2 * i + 1] else level[2 * i])
  }

  /** One pass of `buildMerkleRoot`: neighbours are paired, an odd last node with itself. */
  function Parents(level: Level): (up: Level)
    ensures |up| == (|level| + 1) / 2
  {
    seq((|level| + 1) / 2, i requires 0 <= i && 2 * i < |level| => Parent(level, i))
  }

  function TreeRoot(level: Level): Digest
    decreases |level|
  {
    if |level| == 1 then level[0] else TreeRoot(Parents(level))
  }

  /** The root the service publishes: all zeros for no leaves. */
  function MerkleRoot(leaves: seq<Digest>): Digest {
    if leaves == [] then Zero else TreeRoot(leaves)
  }

  method BuildMerkleRoot(leaves: seq<Digest>) returns (root: Digest)
    ensures root == MerkleRoot(leaves)
  {
    if |leaves| == 0 {
      return Zero;
    }
    var currentLevel := leaves;
    while |currentLevel| > 1
      invariant currentLevel != []
      invariant TreeRoot(currentLevel) == TreeRoot(leaves)
      decreases |currentLevel|
    {
      currentLevel := NextLevel(currentLevel);
    }
    return currentLevel[0];
  }

  /** The inner loop of `buildMerkleRoot`. */
  method NextLevel(currentLevel: Level) returns (nextLevel: seq<Digest>)
    ensures nextLevel == Parents(currentLevel)
  {
    nextLevel := [];
    var i := 0;
    while i < |currentLevel|
      invariant i == 2 * |nextLevel| && i <= |currentLevel| + 1
      invariant forall k :: 0 <= k < |nextLevel| ==> nextLevel[k] == Parent(currentLevel, k)
    {
      var left := currentLevel[i];
      var right := if i + 1 < |currentLevel| then currentLevel[i + 1] else left;
      nextLevel := nextLevel + [Node(left, right)];
      i := i + 2;
    }
  }

  // ------------------------------------------------------------- on chain

  type U8 = n: nat | n < 256

  /** A position after `m` right shifts; its parity tells the side at height `m`. */
  function Shift(position: nat, m: nat): nat {
    if m == 0 then position else Shift(position, m - 1) / 2
  }

  /** What `compute_merkle_root` folds a leaf and a path to. */
  function Fold(leaf: Digest, path: seq<Digest>, position: nat): Digest {
    if path == [] then leaf
    else
      var m := |path| - 1;
      var below := Fold(leaf, path[..m], position);
      if Shift(position, m) % 2 == 0 then Node(below, path[m]) else Node(path[m], below)
  }

  method ComputeMerkleRoot(leaf: Digest, path: seq<Digest>, position: U8) returns (current: Digest)
    ensures current == Fold(leaf, path, position)
  {
    current := leaf;
    var pos: U8 := position;
    for m := 0 to |path|
      invariant pos == Shift(position, m)
      invariant current == Fold(leaf, path[..m], position)
    {
      assert path[..m + 1][..m] == path[..m];
      if pos % 2 == 0 {
        current := Node(current, path[m]);
      } else {
        current := Node(path[m], current);
      }
      pos := pos / 2;
    }
    assert path[..|path|] == path;
  }

  const MAX_PATH: nat := 32

  datatype ProofError = ManifestIdMismatch | ProofPathTooLong | InvalidManifestLeaf | InvalidProof
  datatype Verdict = Verified(root: Digest, length: nat) | Rejected(error: ProofError)

  /** The manifest account the proof is about. */
  datatype Manifest = Manifest(id: ManifestId, content: ContentHash)

  /** The checks of `verify_merkle_proof`, in order. */
  method VerifyMerkleProof(registryRoot: Digest, manifest: Manifest, id: ManifestId,
                           path: seq<Digest>, leaf: Digest, position: U8) returns (v: Verdict)
    ensures v.Verified? <==>
            manifest.id == id && |path| <= 32 && leaf == Leaf(id, manifest.content) && Fold(leaf, path, position) == registryRoot
    ensures v.Verified? ==> v == Verified(registryRoot, |path|)
    ensures v == Rejected(ManifestIdMismatch) <==> manifest.id != id
    ensures v == Rejected(ProofPathTooLong) <==> manifest.id == id && 32 < |path|
    ensures v == Rejected(InvalidManifestLeaf) <==>
            manifest.id == id && |path| <= 32 && leaf != Leaf(id, manifest.content)
    ensures v == Rejected(InvalidProof) <==>
            manifest.id == id && |path| <= 32 && leaf == Leaf(id, manifest.content)
            && Fold(leaf, path, position) != registryRoot
  {
    if manifest.id != id {
      return Rejected(ManifestIdMismatch);
    }
    if |path| > MAX_PATH {
      return Rejected(ProofPathTooLong);
    }
    if leaf != Leaf(id, manifest.content) {
      return Rejected(InvalidManifestLeaf);
    }
    var root := ComputeMerkleRoot(leaf, path, position);
    if root != registryRoot {
      return Rejected(InvalidProof);
    }
    return Verified(root, |path|);
  }

  /** When the on-chain program accepts a proof. */
  predicate Accepts(registryRoot: Digest, manifest: Manifest, id: ManifestId,
                    path: seq<Digest>, leaf: Digest, position: U8) {
    && manifest.id == id
    && |path| <= MAX_PATH
    && leaf == Leaf(id, manifest.content)
    && Fold(leaf, path, position) == registryRoot
  }

  // ------------------------------------------------------------- levels

  /** The j-th level of the tree over `level`. */
  function LevelAt(level: Level, j: nat): Level {
    if j == 0 then level else Parents(LevelAt(level, j - 1))
  }

  /** The number of passes over `n` leaves, hence the length of every path. */
  function Height(n: nat): nat
    requires 0 < n
  {
    if n == 1 then 0 else 1 + Height((n + 1) / 2)
  }

  lemma {:induction false} LevelShift(level: Level, j: nat)
    ensures LevelAt(Parents(level), j) == LevelAt(level, j + 1)
  {
    if j == 0 {
    } else {
      LevelShift(level, j - 1);
    }
  }

  /** The root is the only node of the level at the tree's height. */
  lemma {:induction false} RootIsTopLevel(level: Level)
    ensures LevelAt(level, Height(|level|)) == [TreeRoot(level)]
    decreases |level|
  {
    if |level| > 1 {
      RootIsTopLevel(Parents(level));
      LevelShift(level, Height(|level|) - 1);
    }
  }

  // ------------------------------------------------------------- commitment

  /** The number of nodes on the leftmost branch. */
  function LeftDepth(d: Digest): nat {
    match d
    case Node(l, _) => 1 + LeftDepth(l)
    case _ => 0
  }

  ghost predicate Distinct(s: seq<Digest>) {
    forall i, j :: 0 <= i < j < |s| ==> s[i] != s[j]
  }

  ghost predicate AllAtDepth(s: seq<Digest>, d: nat) {
    forall i :: 0 <= i < |s| ==> LeftDepth(s[i]) == d
  }

  /** Pairing keeps distinctness: two parents differ in their left child. */
  lemma {:induction false} ParentsDistinct(level: Level, d: nat)
    requires Distinct(level) && AllAtDepth(level, d)
    ensures Distinct(Parents(level)) && AllAtDepth(Parents(level), d + 1)
  {
    var up := Parents(level);
    forall i, j | 0 <= i < j < |up| ensures up[i] != up[j] {
      assert up[i].left == level[2 * i] && up[j].left == level[2 * j];
    }
  }

  /** Distinct levels with the same parents are the same level: a duplicated odd node cannot
      pass for two equal neighbours. */
  lemma {:induction false} ParentsInjective(s: Level, t: Level)
    requires Distinct(s) && Distinct(t) && Parents(s) == Parents(t)
    ensures s == t
  {
    var up, vp := Parents(s), Parents(t);
    var last := |up| - 1;
    assert up[last] == vp[last];
    assert |s| == |t|;
    forall i | 0 <= i < |s| ensures s[i] == t[i] {
      assert up[i / 2] == vp[i / 2];
      assert up[i / 2] == Parent(s, i / 2) && vp[i / 2] == Parent(t, i / 2);
    }
  }

  lemma {:induction false} RootDepth(s: Level, d: nat)
    requires AllAtDepth(s, d)
    ensures LeftDepth(TreeRoot(s)) == d + Height(|s|)
    decreases |s|
  {
    if |s| > 1 {
      RootDepth(Parents(s), d + 1);
    }
  }

  lemma {:induction false} TreeRootInjective(s: Level, t: Level, d: nat)
    requires Distinct(s) && Distinct(t) && AllAtDepth(s, d) && AllAtDepth(t, d)
    requires TreeRoot(s) == TreeRoot(t)
    ensures s == t
    decreases |s|
  {
    RootDepth(s, d);
    RootDepth(t, d);
    assert Height(|s|) == Height(|t|);
    if |s| > 1 {
      ParentsDistinct(s, d);
      ParentsDistinct(t, d);
      TreeRootInjective(Parents(s), Parents(t), d + 1);
      ParentsInjective(s, t);
    }
  }

  function LeavesOf(entries: seq<Manifest>): (leaves: seq<Digest>)
    ensures |leaves| == |entries|
    ensures forall i :: 0 <= i < |leaves| ==> leaves[i] == Leaf(entries[i].id, entries[i].content)
  {
    seq(|entries|, i requires 0 <= i < |entries| => Leaf(entries[i].id, entries[i].content))
  }

  ghost predicate DistinctIds(entries: seq<Manifest>) {
    forall i, j :: 0 <= i < j < |entries| ==> entries[i].id != entries[j].id
  }

  /** The published root commits to the ordered list of entries, of whatever length: equal
      roots come from equal lists. */
  lemma {:induction false} RootCommits(a: seq<Manifest>, b: seq<Manifest>)
    requires DistinctIds(a) && DistinctIds(b)
    requires MerkleRoot(LeavesOf(a)) == MerkleRoot(LeavesOf(b))
    ensures a == b
  {
    var s, t := LeavesOf(a), LeavesOf(b);
    if s != [] {
      RootDepth(s, 0);
      RootNotZero(s);
    }
    if t != [] {
      RootNotZero(t);
    }
    if s != [] && t != [] {
      TreeRootInjective(s, t, 0);
      forall i | 0 <= i < |a| ensures a[i] == b[i] {
        assert s[i] == t[i];
      }
    }
  }

  lemma {:induction false} RootNotZero(s: Level)
    requires forall i :: 0 <= i < |s| ==> s[i].Leaf?
    ensures TreeRoot(s) != Zero
  {
    RootIsTopLevel(s);
    var h := Height(|s|);
    if h > 0 {
      assert LevelAt(s, h)[0] == Parent(LevelAt(s, h - 1), 0);
    }
  }

  /** Distinctness is needed: repeating the last leaf of an odd list keeps the root. */
  lemma {:induction false} RepeatedLeafCollides(a: Digest, b: Digest, c: Digest)
    ensures MerkleRoot([a, b, c]) == MerkleRoot([a, b, c, c])
  {
    assert Parents([a, b, c]) == [Node(a, b), Node(c, c)] == Parents([a, b, c, c]);
  }

  // ------------------------------------------------------------- soundness

  ghost predicate AllLeaves(s: seq<Digest>) {
    forall i :: 0 <= i < |s| ==> s[i].Leaf?
  }

  lemma {:induction false} UpperNode(s: Level, j: nat, q: nat)
    requires 0 < j && q < |LevelAt(s, j)|
    ensures LevelAt(s, j)[q] == Parent(LevelAt(s, j - 1), q)
  {
  }

  /** The child of the q-th node that a fold came from. */
  lemma {:induction false} FoldChild(s: Level, leaf: Digest, path: seq<Digest>, position: nat, j: nat, q: nat)
    returns (child: nat)
    requires 0 < j && q < |LevelAt(s, j)| && leaf.Leaf?
    requires Fold(leaf, path, position) == LevelAt(s, j)[q]
    ensures path != [] && child < |LevelAt(s, j - 1)|
    ensures child <= 2 * q + Shift(position, |path| - 1) % 2
    ensures Fold(leaf, path[..|path| - 1], position) == LevelAt(s, j - 1)[child]
  {
    UpperNode(s, j, q);
    var below := LevelAt(s, j - 1);
    child := if Shift(position, |path| - 1) % 2 == 0 || |below| <= 2 * q + 1 then 2 * q else 2 * q + 1;
  }

  lemma {:induction false} ShiftHalves(position: nat, m: nat)
    ensures Shift(position, m) == 2 * Shift(position, m + 1) + Shift(position, m) % 2
  {
  }

  lemma {:induction false} FoldLength(s: Level, leaf: Digest, path: seq<Digest>, position: nat, j: nat, q: nat)
    requires AllLeaves(s) && leaf.Leaf? && q < |LevelAt(s, j)|
    requires Fold(leaf, path, position) == LevelAt(s, j)[q]
    ensures |path| == j
    decreases j
  {
    if j == 0 {
      assert LevelAt(s, j)[q].Leaf?;
    } else {
      var child := FoldChild(s, leaf, path, position, j, q);
      FoldLength(s, leaf, path[..|path| - 1], position, j - 1, child);
    }
  }

  /** A leaf folded to the q-th node of level j is one of the leaves, at an index no larger
      than the position when q is no larger than the position shifted j times. */
  lemma {:induction false} FoldIsMember(s: Level, leaf: Digest, path: seq<Digest>, position: nat, q: nat)
    returns (i: nat)
    requires leaf.Leaf? && q < |LevelAt(s, |path|)| && q <= Shift(position, |path|)
    requires Fold(leaf, path, position) == LevelAt(s, |path|)[q]
    ensures i < |s| && i <= position && s[i] == leaf
    decreases |path|
  {
    if path == [] {
      i := q;
    } else {
      var child := FoldChild(s, leaf, path, position, |path|, q);
      ShiftHalves(position, |path| - 1);
      i := FoldIsMember(s, leaf, path[..|path| - 1], position, child);
    }
  }

  /** Any proof the program accepts against a published root, of whatever length and position,
      has the tree's height as its length and is about one of the published entries, at an index no
      larger than the position. */
  lemma {:induction false} AcceptedIsPublished(entries: seq<Manifest>, manifest: Manifest, id: ManifestId,
                            path: seq<Digest>, leaf: Digest, position: U8)
    requires Accepts(MerkleRoot(LeavesOf(entries)), manifest, id, path, leaf, position)
    ensures |path| == Height(|entries|) && manifest.id == id
    ensures exists i: nat :: i < |entries| && i <= position && entries[i] == manifest
  {
    var s := LeavesOf(entries);
    FoldOfLeafNotZero(leaf, path, position);
    assert s != [];
    RootIsTopLevel(s);
    FoldLength(s, leaf, path, position, Height(|s|), 0);
    var i := FoldIsMember(s, leaf, path, position, 0);
    assert s[i] == Leaf(entries[i].id, entries[i].content);
  }

  lemma {:induction false} FoldOfLeafNotZero(leaf: Digest, path: seq<Digest>, position: nat)
    requires leaf.Leaf?
    ensures Fold(leaf, path, position) != Zero
  {
  }

  // ------------------------------------------------------------- completeness

  /** The sibling of the i-th node: itself where an odd level ends. */
  function Sibling(level: Level, i: nat): Digest
    requires i < |level|
  {
    if i % 2 == 1 then level[i - 1] else if i + 1 < |level| then level[i + 1] else level[i]
  }

  /** The path read off the levels of the tree, from the i-th leaf up to level m. */
  function PathTo(s: Level, i: nat, m: nat): (path: seq<Digest>)
    requires i < |s|
    ensures |path| == m
    ensures Shift(i, m) < |LevelAt(s, m)|
  {
    if m == 0 then []
    else
      var below := PathTo(s, i, m - 1);
      below + [Sibling(LevelAt(s, m - 1), Shift(i, m - 1))]
  }

  lemma {:induction false} PathFolds(s: Level, i: nat, m: nat)
    requires i < |s|
    ensures Fold(s[i], PathTo(s, i, m), i) == LevelAt(s, m)[Shift(i, m)]
  {
    if m == 0 {
    } else {
      PathFolds(s, i, m - 1);
      PathStep(s, s[i], PathTo(s, i, m - 1), i, m - 1);
    }
  }

  lemma {:induction false} PathStep(s: Level, leaf: Digest, path: seq<Digest>, i: nat, m: nat)
    requires |path| == m && Shift(i, m) < |LevelAt(s, m)|
    requires Fold(leaf, path, i) == LevelAt(s, m)[Shift(i, m)]
    ensures Shift(i, m + 1) < |LevelAt(s, m + 1)|
    ensures Fold(leaf, path + [Sibling(LevelAt(s, m), Shift(i, m))], i) == LevelAt(s, m + 1)[Shift(i, m + 1)]
  {
    var level, k := LevelAt(s, m), Shift(i, m);
    FoldStep(leaf, path, Sibling(level, k), i);
    SiblingPairs(level, k);
    UpperNode(s, m + 1, k / 2);
  }

  lemma {:induction false} FoldStep(leaf: Digest, path: seq<Digest>, sibling: Digest, position: nat)
    ensures var below := Fold(leaf, path, position);
            Fold(leaf, path + [sibling], position) ==
            if Shift(position, |path|) % 2 == 0 then Node(below, sibling) else Node(sibling, below)
  {
    assert (path + [sibling])[..|path|] == path;
  }

  lemma {:induction false} SiblingPairs(level: Level, k: nat)
    requires k < |level|
    ensures Parent(level, k / 2) ==
            if k % 2 == 0 then Node(level[k], Sibling(level, k)) else Node(Sibling(level, k), level[k])
  {
  }

  /** The path of every leaf, taken with its own index as position, folds to the root. */
  lemma {:induction false} PathIsComplete(s: Level, i: nat)
    requires i < |s|
    ensures Fold(s[i], PathTo(s, i, Height(|s|)), i) == TreeRoot(s)
  {
    RootIsTopLevel(s);
    PathFolds(s, i, Height(|s|));
  }

  ghost predicate Provable(entries: seq<Manifest>, i: nat)
    requires i < |entries|
  {
    exists path: seq<Digest>, leaf: Digest, position: U8 ::
      Accepts(MerkleRoot(LeavesOf(entries)), entries[i], entries[i].id, path, leaf, position)
  }

  function Doublings(h: nat): nat {
    if h == 0 then 1 else 2 * Doublings(h - 1)
  }

  /** A tree of height `h` holds up to 2^h leaves. */
  lemma {:induction false} HeightIff(n: nat, h: nat)
    requires 0 < n
    ensures Height(n) <= h <==> n <= Doublings(h)
  {
    if n == 1 {
      AtLeastOne(h);
    } else if h != 0 {
      HeightIff((n + 1) / 2, h - 1);
    }
  }

  lemma {:induction false} AtLeastOne(h: nat)
    ensures 1 <= Doublings(h)
  {
    if h == 0 {
    } else {
      AtLeastOne(h - 1);
    }
  }

  lemma {:induction false} LongestPathHolds(h: nat)
    requires h == MAX_PATH
    ensures Doublings(h) == 0x1_0000_0000
  {
    assert Doublings(8) == 256;
    assert Doublings(16) == 0x1_0000;
    assert Doublings(24) == 0x100_0000;
  }

  /** Two leaves side by side, and an odd third beside itself; read from the left when folding. */
  lemma {:induction false} ThreeLeaves(a: Digest, b: Digest, c: Digest)
    ensures MerkleRoot([a, b, c]) == Node(Node(a, b), Node(c, c))
    ensures Fold(a, [b, Node(c, c)], 0) == Fold(b, [a, Node(c, c)], 1) == Fold(c, [c, Node(a, b)], 2) == MerkleRoot([a, b, c])
  {
    assert Parents([a, b, c]) == [Node(a, b), Node(c, c)];
    assert Parents([Node(a, b), Node(c, c)]) == [Node(Node(a, b), Node(c, c))];
    assert TreeRoot([Node(Node(a, b), Node(c, c))]) == Node(Node(a, b), Node(c, c));
    assert TreeRoot([Node(a, b), Node(c, c)]) == TreeRoot(Parents([Node(a, b), Node(c, c)]));
    assert TreeRoot([a, b, c]) == TreeRoot(Parents([a, b, c]));
    FoldTwo(a, b, Node(c, c), 0);
    FoldTwo(b, a, Node(c, c), 1);
    FoldTwo(c, c, Node(a, b), 2);
  }

  lemma {:induction false} FoldTwo(leaf: Digest, first: Digest, second: Digest, position: nat)
    ensures var below := if position % 2 == 0 then Node(leaf, first) else Node(first, leaf);
            Fold(leaf, [first, second], position) == if position / 2 % 2 == 0 then Node(below, second) else Node(second, below)
  {
    FoldStep(leaf, [], first, position);
    FoldStep(leaf, [first], second, position);
    assert [] + [first] == [first] && [first] + [second] == [first, second];
    assert Shift(position, 1) == Shift(position, 0) / 2;
  }

  /** A published entry can be proved on chain exactly when its index fits the 8-bit position and there are no
      more entries than a path of 32 nodes can reach. */
  lemma {:induction false} ProvableIff(entries: seq<Manifest>, i: nat)
    requires DistinctIds(entries) && i < |entries|
    ensures Provable(entries, i) <==> i < 256 && |entries| <= 0x1_0000_0000
  {
    LongestPathHolds(MAX_PATH);
    HeightIff(|entries|, MAX_PATH);
    var s := LeavesOf(entries);
    if Provable(entries, i) {
      var path: seq<Digest>, leaf: Digest, position: U8 :|
        Accepts(MerkleRoot(s), entries[i], entries[i].id, path, leaf, position);
      AcceptedIsPublished(entries, entries[i], entries[i].id, path, leaf, position);
    }
    if i < 256 && Height(|entries|) <= MAX_PATH {
      PathIsComplete(s, i);
      assert Accepts(MerkleRoot(s), entries[i], entries[i].id, PathTo(s, i, Height(|s|)), s[i], i);
    }
  }

  // ------------------------------------------------------------- the registry service

  const ID_BYTES: nat := 16

  datatype Status = Created | BadRequest

  function EntriesOf(ids: seq<ManifestId>, contents: map<ManifestId, ContentHash>): (entries: seq<Manifest>)
    requires forall id :: id in ids ==> id in contents
    ensures |entries| == |ids|
    ensures forall i :: 0 <= i < |ids| ==> entries[i] == Manifest(ids[i], contents[ids[i]])
  {
    seq(|ids|, i requires 0 <= i < |ids| => Manifest(ids[i], contents[ids[i]]))
  }

  /** The service's `manifests` map in insertion order. */
  class ManifestService {
    var ids: seq<ManifestId>
    var contents: map<ManifestId, ContentHash>

    ghost predicate Valid()
      reads this
    {
      && (forall i, j :: 0 <= i < j < |ids| ==> ids[i] != ids[j])
      && (forall id :: id in contents <==> id in ids)
    }

    /** The entries a snapshot commits to. */
    ghost function Published(): seq<Manifest>
      requires Valid()
      reads this
    {
      EntriesOf(ids, contents)
    }

    constructor ()
      ensures Valid() && Published() == []
    {
      ids, contents := [], map[];
    }

    /** Publishing: a known id keeps its place and gets the new content, a new one goes last. */
    method Publish(id: ManifestId, content: ContentHash, signatureOk: bool) returns (status: Status)
      requires Valid()
      modifies this
      ensures Valid()
      ensures status == Created <==> |id| == ID_BYTES && signatureOk
      ensures status == BadRequest ==> Published() == old(Published())
      ensures status == Created && id in old(ids) ==>
                ids == old(ids) && contents == old(contents)[id := content]
      ensures status == Created && id !in old(ids) ==>
                Published() == old(Published()) + [Manifest(id, content)]
    {
      if |id| != ID_BYTES || !signatureOk {
        return BadRequest;
      }
      if id !in contents {
        ids := ids + [id];
      }
      contents := contents[id := content];
      return Created;
    }

    method CreateSnapshot() returns (root: Digest, total: nat)
      requires Valid()
      ensures root == MerkleRoot(LeavesOf(Published())) && total == |Published()|
      ensures DistinctIds(Published())
    {
      var leaves: seq<Digest> := [];
      for i := 0 to |ids|
        invariant |leaves| == i
        invariant forall k :: 0 <= k < i ==> leaves[k] == Leaf(ids[k], contents[ids[k]])
      {
        leaves := leaves + [Leaf(ids[i], contents[ids[i]])];
      }
      assert leaves == LeavesOf(Published());
      root := BuildMerkleRoot(leaves);
      total := |ids|;
    }
  }
}
