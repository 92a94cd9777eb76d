/** Vector types and the fixed cube mesh the volume is ray-marched through. */
module Geometry {

  /** A glm::vec3; float components are modelled as real numbers. */
  datatype Vec3 = Vec3(x: real, y: real, z: real)

  /** A glm::vec2. */
  datatype Vec2 = Vec2(x: real, y: real)

  /** A glm::uvec3, such as the per-axis voxel resolution of the volume. */
  datatype UVec3 = UVec3(x: U32, y: U32, z: U32)

  /** The range of a uint32_t. */
  type U32 = n: nat | n < 0x1_0000_0000

  /** Number of triangles of the cube mesh and the index count drawn. */
  const TriangleCount: nat := 12
  const DrawnIndexCount: nat := 36

  /** True when every coordinate of `c` is 0 or 1, i.e. `c` is a corner of the unit cube. */
  predicate IsUnitCorner(c: UVec3) {
    c.x <= 1 && c.y <= 1 && c.z <= 1
  }

  /** The eight corners of the unit cube, in the order the mesh lists them. */
  function UnitCorners(): (r: seq<UVec3>)
    ensures |r| == 8
    ensures forall i :: 0 <= i < |r| ==> IsUnitCorner(r[i])
  {
    [UVec3(0, 0, 0), UVec3(0, 1, 0), UVec3(1, 1, 0), UVec3(1, 0, 0),
     UVec3(1, 0, 1), UVec3(1, 1, 1), UVec3(0, 1, 1), UVec3(0, 0, 1)]
  }

  /** The index list of the cube: twelve triangles, two per face, three indices each. */
  function CubeIndices(): (r: seq<nat>)
    ensures |r| == DrawnIndexCount == 3 * TriangleCount
    ensures forall i :: 0 <= i < |r| ==> r[i] < |UnitCorners()|
  {
    [0, 1, 2, 0, 2, 3,
     3, 2, 5, 3, 5, 4,
     4, 5, 6, 4, 6, 7,
     7, 6, 1, 7, 1, 0,
     7, 0, 3, 7, 3, 4,
     1, 6, 5, 1, 5, 2]
  }

  /** Componentwise sum, glm's `+=` on vectors. */
  function Plus(a: Vec3, b: Vec3): Vec3 {
    Vec3(a.x + b.x, a.y + b.y, a.z + b.z)
  }

  /** Componentwise product, glm's `*=` on vectors. */
  function Times(a: Vec3, b: Vec3): Vec3 {
    Vec3(a.x * b.x, a.y * b.y, a.z * b.z)
  }

  /** A unit corner as a float vector, as the mesh first lists it. */
  function CornerPosition(c: UVec3): Vec3 {
    Vec3(c.x as real, c.y as real, c.z as real)
  }

  /** The shift that moves the unit cube's centre to the origin. */
  const Recentre: Vec3 := Vec3(-0.5, -0.5, -0.5)

  /**
   * The vertex a unit corner becomes once shifted by -0.5 and scaled by the
   * volume size: a corner of the box of extent `volumeSize` centred on the origin.
   */
  function PlacedCorner(c: UVec3, volumeSize: Vec3): (v: Vec3)
    requires IsUnitCorner(c)
    ensures v.x == if c.x == 1 then volumeSize.x / 2.0 else -(volumeSize.x / 2.0)
    ensures v.y == if c.y == 1 then volumeSize.y / 2.0 else -(volumeSize.y / 2.0)
    ensures v.z == if c.z == 1 then volumeSize.z / 2.0 else -(volumeSize.z / 2.0)
  {
    assert c.x as real - 0.5 == if c.x == 1 then 0.5 else -0.5;
    assert c.y as real - 0.5 == if c.y == 1 then 0.5 else -0.5;
    assert c.z as real - 0.5 == if c.z == 1 then 0.5 else -0.5;
    Times(Plus(CornerPosition(c), Recentre), volumeSize)
  }
}
