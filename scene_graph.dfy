/**
 * The part of a three.js scene graph that the interaction layer reads and
 * writes. A subtree is represented by the sequence of its nodes in the order
 * `Object3D.traverse` visits them (pre-order), so "for every node of the
 * traversal" becomes "for every index of the sequence".
 */
module SceneGraph {
  import opened Options
  import opened Vectors

  /** An object's `uuid`, unique for the session. */
  type ObjectId = int

  /** Identity of a material object; several meshes may share one material. */
  type MaterialId = int

  /**
   * One `Object3D`: `isMesh` is `instanceof THREE.Mesh`, `isStatic` is
   * `userData.isStatic === true`, `materials` is `mesh.material` as a list of
   * material identities (empty when absent, one element when it is not an array).
   */
  datatype Node = Node(
    id: ObjectId,
    name: string,
    isMesh: bool,
    isStatic: bool,
    position: Vec3,
    rotation: Vec3,
    materials: seq<MaterialId>)

  /** The ids of a traversal. */
  function Ids(nodes: seq<Node>): (r: set<ObjectId>)
    ensures forall i :: 0 <= i < |nodes| ==> nodes[i].id in r
    ensures forall k :: k in r ==> exists i :: 0 <= i < |nodes| && nodes[i].id == k
  {
    set i | 0 <= i < |nodes| :: nodes[i].id
  }

  /** Every node of the traversal has its own uuid. */
  ghost predicate UniqueIds(nodes: seq<Node>)
  {
    forall i, j :: 0 <= i < j < |nodes| ==> nodes[i].id != nodes[j].id
  }

  /** `String.prototype.toLowerCase` on one character, for the ASCII letters. */
  function LowerChar(c: char): (r: char)
    ensures 'A' <= c <= 'Z' ==> r as int == c as int + 32
    ensures !('A' <= c <= 'Z') ==> r == c
  {
    if 'A' <= c <= 'Z' then (c as int + 32) as char else c
  }

  function Lower(s: string): (r: string)
    ensures |r| == |s|
    ensures forall i :: 0 <= i < |s| ==> r[i] == LowerChar(s[i])
  {
    seq(|s|, i requires 0 <= i < |s| => LowerChar(s[i]))
  }

  /** `String.prototype.includes`: `p` occurs in `s` as a contiguous piece. */
  predicate Includes(s: string, p: string)
    ensures Includes(s, p) ==> |p| <= |s|
    ensures |p| <= |s| && s[..|p|] == p ==> Includes(s, p)
    decreases |s|
  {
    |p| <= |s| && (s[..|p|] == p || Includes(s[1..], p))
  }

  /** `p` occurs in `s` starting at offset `i`. */
  predicate OccursAt(s: string, p: string, i: int)
  {
    0 <= i <= |s| - |p| && s[i..i + |p|] == p
  }

  /** A slice of the tail is the slice of the string one further on. */
  lemma TailSlice(s: string, a: int, b: int)
    requires 1 <= a <= b <= |s|
    ensures s[1..][a - 1..b - 1] == s[a..b]
  {
    assert forall k :: 0 <= k < b - a ==> s[1..][a - 1..b - 1][k] == s[a..b][k];
  }

  /** `Includes` agrees with the direct definition: some offset of `s` starts a copy of `p`. */
  lemma {:induction false} IncludesIffOccurs(s: string, p: string)
    ensures Includes(s, p) <==> exists i :: OccursAt(s, p, i)
    decreases |s|
  {
    if |p| <= |s| {
      if s[..|p|] == p {
        assert OccursAt(s, p, 0);
      } else {
        IncludesIffOccurs(s[1..], p);
        if Includes(s[1..], p) {
          var i :| OccursAt(s[1..], p, i);
          TailSlice(s, i + 1, i + 1 + |p|);
          assert OccursAt(s, p, i + 1);
        } else {
          forall i | 0 < i <= |s| - |p|
            ensures !OccursAt(s, p, i)
          {
            TailSlice(s, i, i + |p|);
            assert !OccursAt(s[1..], p, i - 1);
          }
          assert !OccursAt(s, p, 0);
        }
      }
    } else {
      forall i | OccursAt(s, p, i) ensures false { }
    }
  }

  /** The name test used both at load time and by the "static floor" switch. */
  predicate IsFloorOrWallName(name: string)
    ensures IsFloorOrWallName(name) <==>
      (exists i :: OccursAt(Lower(name), "floor", i)) || (exists i :: OccursAt(Lower(name), "wall", i))
  {
    IncludesIffOccurs(Lower(name), "floor");
    IncludesIffOccurs(Lower(name), "wall");
    Includes(Lower(name), "floor") || Includes(Lower(name), "wall")
  }

  /** A node whose `isStatic` flag the static-object rules control. */
  predicate IsStaticCandidate(n: Node)
  {
    n.isMesh && IsFloorOrWallName(n.name)
  }

  /**
   * The traversal after setting `userData.isStatic := flag` on every mesh whose
   * lower-cased name contains "floor" or "wall".
   */
  function WithStaticFlag(nodes: seq<Node>, flag: bool): (r: seq<Node>)
    ensures |r| == |nodes|
    ensures forall i :: 0 <= i < |nodes| ==>
      r[i].isStatic == (if IsStaticCandidate(nodes[i]) then flag else nodes[i].isStatic)
    ensures forall i :: 0 <= i < |nodes| ==> r[i].(isStatic := nodes[i].isStatic) == nodes[i]
  {
    seq(|nodes|, i requires 0 <= i < |nodes| =>
      if IsStaticCandidate(nodes[i]) then nodes[i].(isStatic := flag) else nodes[i])
  }

  /** Setting the flag twice with the same value is the same as setting it once. */
  lemma WithStaticFlagIdempotent(nodes: seq<Node>, flag: bool)
    ensures WithStaticFlag(WithStaticFlag(nodes, flag), flag) == WithStaticFlag(nodes, flag)
  {
    var once := WithStaticFlag(nodes, flag);
    assert forall i :: 0 <= i < |once| ==> once[i].isMesh == nodes[i].isMesh && once[i].name == nodes[i].name;
  }

  /** A later setting overrides an earlier one: only the last flag matters. */
  lemma WithStaticFlagLastWins(nodes: seq<Node>, first: bool, second: bool)
    ensures WithStaticFlag(WithStaticFlag(nodes, first), second) == WithStaticFlag(nodes, second)
  {
    var once := WithStaticFlag(nodes, first);
    assert forall i :: 0 <= i < |once| ==> once[i].isMesh == nodes[i].isMesh && once[i].name == nodes[i].name;
  }

  /** The match is case-insensitive and by substring: "Main_FLOOR" and "BackWall" both qualify. */
  lemma NameExamples()
    ensures IsFloorOrWallName("Main_FLOOR")
    ensures IsFloorOrWallName("BackWall")
  {
    var a := Lower("Main_FLOOR");
    assert a[5..10] == "floor";
    assert OccursAt(a, "floor", 5);
    IncludesIffOccurs(a, "floor");
    var b := Lower("BackWall");
    assert b[4..8] == "wall";
    assert OccursAt(b, "wall", 4);
    IncludesIffOccurs(b, "wall");
  }
}
