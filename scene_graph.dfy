/**
 * The scene graph as far as placement goes: every Object3D of the scene
 * (scene, groups, meshes, camera) is an entry of a node table, identified
 * by its creation index. A node has a local translation relative to its
 * parent, an abstract rotation about the Y axis in whole degrees, an
 * optional material (a mesh) and an ordered list of children.
 */
module SceneGraph {
  import opened Wrappers
  import opened Geometry
  import opened Materials

  type NodeId = nat

  datatype Node = Node(
    offset: Vec3,                 // local translation relative to the parent
    turnY: int,                   // rotation about Y, in degrees, 0 <= turnY < 360
    material: Option<Material>,   // Some for a mesh, None for a group
    parent: Option<NodeId>,
    children: seq<NodeId>)        // insertion order is traversal order

  /** Node n's parent, if any, was created before it. */
  ghost predicate ParentBefore(t: seq<Node>, n: NodeId)
    requires n < |t|
  {
    t[n].parent.Some? ==> t[n].parent.value < n
  }

  /** Every parent was created before its child; this makes the table acyclic. */
  ghost predicate ParentsPrecede(t: seq<Node>)
  {
    forall n :: 0 <= n < |t| ==> ParentBefore(t, n)
  }

  /**
   * Node n's child list and parent link agree with the other nodes', the
   * list has no duplicates, and n is rotated (by a normalised angle) only if
   * it is childless. Under the last condition a node's world position is
   * exactly the sum of the translations on its path from the root.
   */
  ghost predicate NodeOk(t: seq<Node>, n: NodeId)
    requires n < |t|
  {
    && 0 <= t[n].turnY < 360
    && (t[n].turnY != 0 ==> t[n].children == [])
    && (t[n].parent.Some? ==> t[n].parent.value < |t| && n in t[t[n].parent.value].children)
    && (forall i :: 0 <= i < |t[n].children| ==>
          t[n].children[i] < |t| && t[t[n].children[i]].parent == Some(n))
    && (forall i, j :: 0 <= i < j < |t[n].children| ==> t[n].children[i] != t[n].children[j])
  }

  /** The node table is a forest. */
  ghost predicate WellFormed(t: seq<Node>)
  {
    ParentsPrecede(t) && forall n :: 0 <= n < |t| ==> NodeOk(t, n)
  }

  /** A change that keeps every link and keeps rotations on leaves keeps the forest. */
  lemma LinksUnchanged(t: seq<Node>, r: seq<Node>)
    requires WellFormed(t) && |r| == |t|
    requires forall n :: 0 <= n < |t| ==> r[n].parent == t[n].parent && r[n].children == t[n].children
    requires forall n :: 0 <= n < |t| ==>
      0 <= r[n].turnY < 360 && (r[n].turnY != 0 ==> r[n].children == [])
    ensures WellFormed(r)
  {
    forall n | 0 <= n < |r| ensures NodeOk(r, n) && ParentBefore(r, n) {
      assert NodeOk(t, n) && ParentBefore(t, n);
    }
  }

  /** A new, unattached node at the origin (`new THREE.Group()`, `new THREE.Mesh(...)`). */
  function AddNode(t: seq<Node>, material: Option<Material>): (r: seq<Node>)
    requires WellFormed(t)
    ensures WellFormed(r)
    ensures |r| == |t| + 1 && r[..|t|] == t
    ensures r[|t|] == Node(Origin, 0, material, None, [])
  {
    var r := t + [Node(Origin, 0, material, None, [])];
    forall n | 0 <= n < |r| ensures NodeOk(r, n) && ParentBefore(r, n) {
      if n < |t| {
        assert NodeOk(t, n) && ParentBefore(t, n);
      }
    }
    r
  }

  /** `parent.add(child)` for a child that has no parent yet. */
  function Attach(t: seq<Node>, p: NodeId, c: NodeId): (r: seq<Node>)
    requires WellFormed(t) && p < c < |t|
    requires t[c].parent == None && t[p].turnY == 0
    ensures WellFormed(r) && |r| == |t|
    ensures r[p].children == t[p].children + [c] && r[c].parent == Some(p)
    ensures forall n :: 0 <= n < |t| && n != p && n != c ==> r[n] == t[n]
  {
    var r := t[p := t[p].(children := t[p].children + [c])][c := t[c].(parent := Some(p))];
    assert NodeOk(t, p);
    assert c !in t[p].children;
    forall n | 0 <= n < |r| ensures NodeOk(r, n) && ParentBefore(r, n) {
      assert NodeOk(t, n) && ParentBefore(t, n);
      forall i | 0 <= i < |r[n].children|
        ensures r[n].children[i] < |r| && r[r[n].children[i]].parent == Some(n)
      {
        if n != p || i < |t[p].children| {
          assert r[n].children[i] == t[n].children[i];
        }
      }
      if n != c && r[n].parent.Some? {
        assert t[n].parent == r[n].parent;
        assert n in t[t[n].parent.value].children;
      }
      forall i, j | 0 <= i < j < |r[n].children|
        ensures r[n].children[i] != r[n].children[j]
      {
        if n == p && j == |t[p].children| {
          assert r[n].children[i] == t[p].children[i];
        }
      }
    }
    r
  }

  /** `node.applyMatrix4(makeTranslation(v))`: the local translation grows by v. */
  function Translate(t: seq<Node>, n: NodeId, v: Vec3): (r: seq<Node>)
    requires WellFormed(t) && n < |t|
    ensures WellFormed(r) && |r| == |t|
    ensures r[n].offset == Plus(t[n].offset, v)
    ensures r[n].turnY == t[n].turnY && r[n].material == t[n].material
    ensures r[n].parent == t[n].parent && r[n].children == t[n].children
    ensures forall m :: 0 <= m < |t| && m != n ==> r[m] == t[m]
  {
    var r := t[n := t[n].(offset := Plus(t[n].offset, v))];
    forall m | 0 <= m < |t| ensures 0 <= r[m].turnY < 360 && (r[m].turnY != 0 ==> r[m].children == []) {
      assert NodeOk(t, m);
    }
    LinksUnchanged(t, r);
    r
  }

  /**
   * `node.applyMatrix4(makeRotationY(...))` by `degrees`, for a node at its
   * parent's origin with no children: its offset stays at the origin and
   * only its rotation changes.
   */
  function RotateY(t: seq<Node>, n: NodeId, degrees: int): (r: seq<Node>)
    requires WellFormed(t) && n < |t|
    requires t[n].offset == Origin && t[n].children == []
    ensures WellFormed(r) && |r| == |t|
    ensures r[n].turnY == (t[n].turnY + degrees) % 360 && r[n].offset == Origin
    ensures r[n].material == t[n].material && r[n].parent == t[n].parent && r[n].children == []
    ensures forall m :: 0 <= m < |t| && m != n ==> r[m] == t[m]
  {
    var r := t[n := t[n].(turnY := (t[n].turnY + degrees) % 360)];
    forall m | 0 <= m < |t| ensures 0 <= r[m].turnY < 360 && (r[m].turnY != 0 ==> r[m].children == []) {
      assert NodeOk(t, m);
    }
    LinksUnchanged(t, r);
    r
  }

  /**
   * The table after a subtree, given as its new nodes `sub` (its root
   * first), is built and attached under p: p's child list ends with the
   * subtree's root, the first new id.
   */
  function Graft(t: seq<Node>, p: NodeId, sub: seq<Node>): seq<Node>
    requires p < |t|
  {
    t[p := t[p].(children := t[p].children + [|t|])] + sub
  }

  /**
   * Grafting one leaf under an unrotated node is creating it, translating it
   * and adding it; so the table stays a forest.
   */
  lemma GraftLeaf(t: seq<Node>, p: NodeId, v: Vec3, material: Option<Material>)
    requires WellFormed(t) && p < |t| && t[p].turnY == 0
    ensures Graft(t, p, [Node(v, 0, material, Some(p), [])]) ==
      Attach(Translate(AddNode(t, material), |t|, v), p, |t|)
    ensures WellFormed(Graft(t, p, [Node(v, 0, material, Some(p), [])]))
  {
    var g := Graft(t, p, [Node(v, 0, material, Some(p), [])]);
    var r := Attach(Translate(AddNode(t, material), |t|, v), p, |t|);
    forall k | 0 <= k < |g| ensures g[k] == r[k] { }
  }

  /** The position of node n in the frame of its root. */
  function WorldPosition(t: seq<Node>, n: NodeId): Vec3
    requires ParentsPrecede(t) && n < |t|
    decreases n
  {
    assert ParentBefore(t, n);
    match t[n].parent
    case None => t[n].offset
    case Some(q) => Plus(WorldPosition(t, q), t[n].offset)
  }

  /** n is a (reflexive) descendant of a. */
  ghost predicate Under(t: seq<Node>, n: NodeId, a: NodeId)
    requires ParentsPrecede(t) && n < |t|
    decreases n
  {
    assert ParentBefore(t, n);
    n == a || (t[n].parent.Some? && Under(t, t[n].parent.value, a))
  }

  /** The ids on the path from n's root down to n, root first. */
  function PathFromRoot(t: seq<Node>, n: NodeId): (path: seq<NodeId>)
    requires ParentsPrecede(t) && n < |t|
    decreases n
    ensures |path| > 0 && path[|path| - 1] == n
    ensures forall i :: 0 <= i < |path| ==> path[i] <= n
    ensures t[path[0]].parent == None
    ensures forall i :: 0 < i < |path| ==> t[path[i]].parent == Some(path[i - 1])
  {
    assert ParentBefore(t, n);
    match t[n].parent
    case None => [n]
    case Some(q) => PathFromRoot(t, q) + [n]
  }

  /** The sum of the local translations of the nodes of a path, first to last. */
  function SumOffsets(t: seq<Node>, path: seq<NodeId>): Vec3
    requires forall i :: 0 <= i < |path| ==> path[i] < |t|
  {
    if path == [] then Origin else Plus(t[path[0]].offset, SumOffsets(t, path[1..]))
  }

  /** The translation of node n relative to its ancestor a. */
  function RelativePosition(t: seq<Node>, n: NodeId, a: NodeId): Vec3
    requires ParentsPrecede(t) && n < |t| && Under(t, n, a)
    decreases n
  {
    assert ParentBefore(t, n);
    if n == a then Origin else Plus(RelativePosition(t, t[n].parent.value, a), t[n].offset)
  }

  lemma {:induction false} UnderFollowsCreation(t: seq<Node>, n: NodeId, a: NodeId)
    requires ParentsPrecede(t) && n < |t| && Under(t, n, a)
    ensures a <= n
    decreases n
  {
    assert ParentBefore(t, n);
    if n != a {
      UnderFollowsCreation(t, t[n].parent.value, a);
    }
  }

  lemma {:induction false} SumOffsetsSnoc(t: seq<Node>, path: seq<NodeId>, n: NodeId)
    requires forall i :: 0 <= i < |path| ==> path[i] < |t|
    requires n < |t|
    ensures SumOffsets(t, path + [n]) == Plus(SumOffsets(t, path), t[n].offset)
    decreases |path|
  {
    if path == [] {
      assert [] + [n] == [n];
      assert [n][1..] == [];
    } else {
      assert (path + [n])[1..] == path[1..] + [n];
      SumOffsetsSnoc(t, path[1..], n);
    }
  }

  /** A node's world position is the sum of the translations along its root path. */
  lemma {:induction false} WorldPositionIsPathSum(t: seq<Node>, n: NodeId)
    requires ParentsPrecede(t) && n < |t|
    ensures WorldPosition(t, n) == SumOffsets(t, PathFromRoot(t, n))
    decreases n
  {
    assert ParentBefore(t, n);
    match t[n].parent
    case None =>
      assert PathFromRoot(t, n) == [n];
      assert [n][1..] == [];
    case Some(q) =>
      WorldPositionIsPathSum(t, q);
      SumOffsetsSnoc(t, PathFromRoot(t, q), n);
  }

  /** A descendant's world position is its ancestor's plus the translation between them. */
  lemma {:induction false} WorldPositionThroughAncestor(t: seq<Node>, n: NodeId, a: NodeId)
    requires ParentsPrecede(t) && n < |t| && Under(t, n, a)
    ensures a < |t|
    ensures WorldPosition(t, n) == Plus(WorldPosition(t, a), RelativePosition(t, n, a))
    decreases n
  {
    assert ParentBefore(t, n);
    UnderFollowsCreation(t, n, a);
    if n != a {
      WorldPositionThroughAncestor(t, t[n].parent.value, a);
    }
  }

  /**
   * Attaching c under p moves exactly c's subtree, by p's world position;
   * every other node keeps its world position.
   */
  lemma {:induction false} AttachMovesSubtree(t: seq<Node>, p: NodeId, c: NodeId, n: NodeId)
    requires WellFormed(t) && p < c < |t|
    requires t[c].parent == None && t[p].turnY == 0
    requires n < |t|
    ensures WorldPosition(Attach(t, p, c), n) ==
      if Under(t, n, c) then Plus(WorldPosition(t, p), WorldPosition(t, n)) else WorldPosition(t, n)
    decreases n
  {
    assert ParentBefore(t, n);
    var r := Attach(t, p, c);
    if n == c {
      assert !Under(t, p, c) by {
        if Under(t, p, c) { UnderFollowsCreation(t, p, c); }
      }
      AttachMovesSubtree(t, p, c, p);
    } else if t[n].parent.Some? {
      AttachMovesSubtree(t, p, c, t[n].parent.value);
    }
  }

  /** Translating node m by v moves exactly m's subtree by v. */
  lemma {:induction false} TranslateMovesSubtree(t: seq<Node>, m: NodeId, v: Vec3, n: NodeId)
    requires WellFormed(t) && m < |t| && n < |t|
    ensures WorldPosition(Translate(t, m, v), n) ==
      if Under(t, n, m) then Plus(WorldPosition(t, n), v) else WorldPosition(t, n)
    decreases n
  {
    assert ParentBefore(t, n);
    if t[n].parent.Some? {
      var q := t[n].parent.value;
      TranslateMovesSubtree(t, m, v, q);
      if n == m && Under(t, q, m) {
        UnderFollowsCreation(t, q, m);
      }
    }
  }

  /** Rotating a childless node at its parent's origin moves no node. */
  lemma {:induction false} RotateMovesNothing(t: seq<Node>, m: NodeId, degrees: int, n: NodeId)
    requires WellFormed(t) && m < |t| && n < |t|
    requires t[m].offset == Origin && t[m].children == []
    ensures WorldPosition(RotateY(t, m, degrees), n) == WorldPosition(t, n)
    decreases n
  {
    assert ParentBefore(t, n);
    if t[n].parent.Some? {
      RotateMovesNothing(t, m, degrees, t[n].parent.value);
    }
  }

  /**
   * The table of every Object3D of the program (the scene object, the camera,
   * groups and meshes), which add and applyMatrix4 update in place.
   */
  class NodeTable {
    var nodes: seq<Node>

    ghost predicate Valid()
      reads this
    {
      WellFormed(nodes)
    }

    constructor ()
      ensures Valid() && nodes == []
    {
      nodes := [];
    }

    method NewNode(material: Option<Material>) returns (id: NodeId)
      requires Valid()
      modifies this
      ensures Valid() && id == |old(nodes)|
      ensures nodes == AddNode(old(nodes), material)
    {
      id := |nodes|;
      nodes := AddNode(nodes, material);
    }

    /** `parent.add(child)`. */
    method Add(parent: NodeId, child: NodeId)
      requires Valid() && parent < child < |nodes|
      requires nodes[child].parent == None && nodes[parent].turnY == 0
      modifies this
      ensures Valid() && nodes == Attach(old(nodes), parent, child)
    {
      nodes := Attach(nodes, parent, child);
    }

    /** `node.applyMatrix4(m)` with `m.makeTranslation(v)`. */
    method ApplyTranslation(node: NodeId, v: Vec3)
      requires Valid() && node < |nodes|
      modifies this
      ensures Valid() && nodes == Translate(old(nodes), node, v)
    {
      nodes := Translate(nodes, node, v);
    }

    /** `node.applyMatrix4(m)` with `m.makeRotationY(degrees_to_radians(degrees))`. */
    method ApplyRotationY(node: NodeId, degrees: int)
      requires Valid() && node < |nodes|
      requires nodes[node].offset == Origin && nodes[node].children == []
      modifies this
      ensures Valid() && nodes == RotateY(old(nodes), node, degrees)
    {
      nodes := RotateY(nodes, node, degrees);
    }
  }
}
