/**
 * The CPU-side density field: one (density, mask) pair per voxel, filled
 * z-slice by z-slice, row by row, x varying fastest.
 */
module VolumeField {
  import opened Geometry
  import opened NoiseLayers

  /** One texel of the two-channel density texture. */
  datatype Voxel = Voxel(density: real, mask: real)

  /** The mask channel every generated voxel carries. */
  const Mask: real := 1.0

  /**
   * The noise generator's `Value(point, layers)`. Its body is not part of
   * this model, so the generator is a parameter of every operation using it.
   */
  type NoiseValue = (Vec3, seq<NoiseLayer>) -> real

  /** The sample point of voxel (x, y, z): its integer coordinates, not normalised. */
  function SamplePoint(x: nat, y: nat, z: nat): Vec3 {
    Vec3(x as real, y as real, z as real)
  }

  /** The voxel generated for coordinates (x, y, z). */
  function VoxelAt(x: nat, y: nat, z: nat, layers: seq<NoiseLayer>, value: NoiseValue): Voxel {
    Voxel(value(SamplePoint(x, y, z), layers), Mask)
  }

  /** The first `n` voxels of row `y` of slice `z`. */
  function Row(n: nat, y: nat, z: nat, layers: seq<NoiseLayer>, value: NoiseValue): (r: seq<Voxel>)
    ensures |r| == n
    ensures forall x :: 0 <= x < n ==> r[x] == VoxelAt(x, y, z, layers, value)
  {
    if n == 0 then [] else Row(n - 1, y, z, layers, value) + [VoxelAt(n - 1, y, z, layers, value)]
  }

  /** The first `n` rows, each `width` voxels long, of slice `z`. */
  function Slice(width: nat, n: nat, z: nat, layers: seq<NoiseLayer>, value: NoiseValue): seq<Voxel>
  {
    if n == 0 then [] else Slice(width, n - 1, z, layers, value) + Row(width, n - 1, z, layers, value)
  }

  /** The first `n` slices of a volume of the given size. */
  function Slices(size: UVec3, n: nat, layers: seq<NoiseLayer>, value: NoiseValue): seq<Voxel>
  {
    if n == 0 then [] else Slices(size, n - 1, layers, value) + Slice(size.x, size.y, n - 1, layers, value)
  }

  /** The whole generated field for a volume of the given size: the contents of `volumeData`. */
  function Volume(size: UVec3, layers: seq<NoiseLayer>, value: NoiseValue): (r: seq<Voxel>)
    ensures |r| == (size.x * size.y) * size.z
    ensures forall i :: 0 <= i < |r| ==> r[i].mask == Mask
  {
    SlicesLength(size, size.z, layers, value);
    SlicesMask(size, size.z, layers, value);
    Slices(size, size.z, layers, value)
  }

  /** The row-major position of voxel (x, y, z), x varying fastest, then y, then z. */
  function LinearIndex(size: UVec3, x: nat, y: nat, z: nat): nat {
    x + size.x * (y + size.y * z)
  }

  /** In a grid `width` wide and `n` high, cell (x, y) lies before position width*n. */
  lemma RowMajorBound(width: nat, x: nat, y: nat, n: nat)
    requires x < width && y < n
    ensures x + width * y < width * n
  {
    assert width * (y + 1) == width * y + width;
    assert width * (y + 1) <= width * n;
  }

  lemma {:induction false} SliceLength(width: nat, n: nat, z: nat, layers: seq<NoiseLayer>, value: NoiseValue)
    ensures |Slice(width, n, z, layers, value)| == width * n
  {
    if n > 0 {
      SliceLength(width, n - 1, z, layers, value);
      assert width * (n - 1) + width == width * n;
    }
  }

  /** Slice `z` holds voxel (x, y, z) at position x + width*y. */
  lemma {:induction false} SliceAt(width: nat, n: nat, z: nat, x: nat, y: nat, layers: seq<NoiseLayer>, value: NoiseValue)
    requires x < width && y < n
    ensures |Slice(width, n, z, layers, value)| == width * n
    ensures x + width * y < width * n
    ensures Slice(width, n, z, layers, value)[x + width * y] == VoxelAt(x, y, z, layers, value)
  {
    SliceLength(width, n, z, layers, value);
    RowMajorBound(width, x, y, n);
    SliceLength(width, n - 1, z, layers, value);
    var prev := Slice(width, n - 1, z, layers, value);
    if y < n - 1 {
      SliceAt(width, n - 1, z, x, y, layers, value);
    } else {
      assert x + width * y == |prev| + x;
    }
  }

  lemma {:induction false} SlicesLength(size: UVec3, n: nat, layers: seq<NoiseLayer>, value: NoiseValue)
    ensures |Slices(size, n, layers, value)| == (size.x * size.y) * n
  {
    if n > 0 {
      SlicesLength(size, n - 1, layers, value);
      SliceLength(size.x, size.y, n - 1, layers, value);
      assert (size.x * size.y) * (n - 1) + size.x * size.y == (size.x * size.y) * n;
    }
  }

  /** The linear index of (x, y, z) is the index within slice z plus z whole slices. */
  lemma LinearIndexSplit(size: UVec3, x: nat, y: nat, z: nat)
    ensures LinearIndex(size, x, y, z) == (x + size.x * y) + (size.x * size.y) * z
  {
    assert size.x * (y + size.y * z) == size.x * y + size.x * (size.y * z);
    assert size.x * (size.y * z) == (size.x * size.y) * z;
  }

  /** One more factor: a*(n-1) + a == a*n. */
  lemma MulStep(a: nat, n: nat)
    requires 0 < n
    ensures a * (n - 1) + a == a * n
  {
  }

  /** Of the first `n` slices, slice `z` starts at position (sx*sy)*z. */
  lemma {:induction false} SliceOffset(size: UVec3, n: nat, z: nat, k: nat, layers: seq<NoiseLayer>, value: NoiseValue)
    requires z < n && k < size.x * size.y
    ensures |Slices(size, n, layers, value)| == (size.x * size.y) * n
    ensures (size.x * size.y) * z + k < (size.x * size.y) * n
    ensures |Slice(size.x, size.y, z, layers, value)| == size.x * size.y
    ensures Slices(size, n, layers, value)[(size.x * size.y) * z + k] == Slice(size.x, size.y, z, layers, value)[k]
  {
    var area := size.x * size.y;
    var prev := Slices(size, n - 1, layers, value);
    SlicesLength(size, n - 1, layers, value);
    SliceLength(size.x, size.y, n - 1, layers, value);
    SliceLength(size.x, size.y, z, layers, value);
    MulStep(area, n);
    if z < n - 1 {
      SliceOffset(size, n - 1, z, k, layers, value);
    } else {
      assert area * z + k == |prev| + k;
    }
  }

  /** The first `n` slices hold voxel (x, y, z) at its linear index. */
  lemma SlicesAt(size: UVec3, n: nat, x: nat, y: nat, z: nat, layers: seq<NoiseLayer>, value: NoiseValue)
    requires x < size.x && y < size.y && z < n
    ensures |Slices(size, n, layers, value)| == (size.x * size.y) * n
    ensures LinearIndex(size, x, y, z) < (size.x * size.y) * n
    ensures Slices(size, n, layers, value)[LinearIndex(size, x, y, z)] == VoxelAt(x, y, z, layers, value)
  {
    SliceAt(size.x, size.y, z, x, y, layers, value);
    SliceOffset(size, n, z, x + size.x * y, layers, value);
    LinearIndexSplit(size, x, y, z);
  }

  /**
   * The layout the 3D texture upload expects: one voxel per cell of the
   * size, voxel (x, y, z) at index x + sx*(y + sy*z), density the noise
   * value at (x, y, z) and mask 1.
   */
  lemma VolumeLayout(size: UVec3, layers: seq<NoiseLayer>, value: NoiseValue)
    ensures |Volume(size, layers, value)| == size.x * size.y * size.z
    ensures forall x, y, z :: 0 <= x < size.x && 0 <= y < size.y && 0 <= z < size.z ==>
      LinearIndex(size, x, y, z) < |Volume(size, layers, value)| &&
      Volume(size, layers, value)[LinearIndex(size, x, y, z)] == Voxel(value(SamplePoint(x, y, z), layers), Mask)
  {
    var v := Volume(size, layers, value);
    SlicesLength(size, size.z, layers, value);
    forall x, y, z | 0 <= x < size.x && 0 <= y < size.y && 0 <= z < size.z
      ensures LinearIndex(size, x, y, z) < |v|
      ensures v[LinearIndex(size, x, y, z)] == Voxel(value(SamplePoint(x, y, z), layers), Mask)
    {
      SlicesAt(size, size.z, x, y, z, layers, value);
    }
  }

  /** Every mask channel of a generated field is 1. */
  lemma {:induction false} SlicesMask(size: UVec3, n: nat, layers: seq<NoiseLayer>, value: NoiseValue)
    ensures forall i :: 0 <= i < |Slices(size, n, layers, value)| ==> Slices(size, n, layers, value)[i].mask == Mask
  {
    if n > 0 {
      SlicesMask(size, n - 1, layers, value);
      SliceMask(size.x, size.y, n - 1, layers, value);
    }
  }

  lemma {:induction false} SliceMask(width: nat, n: nat, z: nat, layers: seq<NoiseLayer>, value: NoiseValue)
    ensures forall i :: 0 <= i < |Slice(width, n, z, layers, value)| ==> Slice(width, n, z, layers, value)[i].mask == Mask
  {
    if n > 0 {
      SliceMask(width, n - 1, z, layers, value);
    }
  }

  /**
   * The fill loop of the generator: for z, then y, then x, append
   * (Value((x, y, z), layers), 1).
   */
  method FillVolume(size: UVec3, layers: seq<NoiseLayer>, value: NoiseValue) returns (data: seq<Voxel>)
    ensures data == Volume(size, layers, value)
  {
    data := [];
    var z := 0;
    while z < size.z
      invariant z <= size.z
      invariant data == Slices(size, z, layers, value)
    {
      var y := 0;
      while y < size.y
        invariant y <= size.y
        invariant data == Slices(size, z, layers, value) + Slice(size.x, y, z, layers, value)
      {
        var x := 0;
        while x < size.x
          invariant x <= size.x
          invariant data == Slices(size, z, layers, value) + Slice(size.x, y, z, layers, value) + Row(x, y, z, layers, value)
        {
          data := data + [Voxel(value(SamplePoint(x, y, z), layers), Mask)];
          x := x + 1;
        }
        y := y + 1;
      }
      z := z + 1;
    }
  }
}
