/**
 * The GPU-side objects the renderer owns, seen only through what is uploaded
 * into them, and the lifetime of the density texture: every `new` and
 * `delete` of it is recorded so that "at most one is alive" can be stated.
 */
module GpuResources {
  import opened Geometry
  import opened VolumeField

  /** A nullable owning pointer. */
  datatype Option<T> = None | Some(value: T)

  /** An unsigned byte. */
  type Byte = n: nat | n < 256

  /** A Texture3D built from the field (two 32-bit float channels, trilinear filtering, mirrored edges). */
  datatype Texture3D = Texture3D(data: seq<Voxel>, size: UVec3)

  /** A Texture2D of single-byte texels (point filtering, repeating edges). */
  datatype Texture2D = Texture2D(data: seq<Byte>, width: nat, height: nat)

  /** Side of the small screen-space noise texture. */
  const NoiseTexSide: nat := 64

  /** One allocation or release of a density texture. */
  datatype TextureEvent = Created | Released

  /** Number of density textures alive after `events`. */
  function Live(events: seq<TextureEvent>): int
  {
    if events == [] then 0
    else Live(events[..|events| - 1]) + (if events[|events| - 1] == Created then 1 else -1)
  }

  /** At every point of the history, zero or one density texture is alive. */
  ghost predicate AtMostOneLive(events: seq<TextureEvent>)
  {
    forall k :: 0 <= k <= |events| ==> 0 <= Live(events[..k]) <= 1
  }

  /** Creating while none is alive, or releasing the one that is, keeps the history within one live texture. */
  lemma RecordEvent(events: seq<TextureEvent>, e: TextureEvent)
    requires AtMostOneLive(events)
    requires e == Created ==> Live(events) == 0
    requires e == Released ==> Live(events) == 1
    ensures AtMostOneLive(events + [e])
    ensures Live(events + [e]) == if e == Created then 1 else 0
  {
    var after := events + [e];
    assert after[..|after| - 1] == events;
    forall k | 0 <= k <= |after|
      ensures 0 <= Live(after[..k]) <= 1
    {
      if k <= |events| {
        assert after[..k] == events[..k];
      } else {
        assert after[..k] == after;
      }
    }
  }

  /**
   * One regeneration: release the current texture if there is one, then
   * create the new one. Afterwards exactly one texture is alive, and at no
   * point in between were there two.
   */
  lemma Regeneration(events: seq<TextureEvent>, hadTexture: bool)
    requires AtMostOneLive(events)
    requires Live(events) == if hadTexture then 1 else 0
    ensures AtMostOneLive(events + (if hadTexture then [Released] else []) + [Created])
    ensures Live(events + (if hadTexture then [Released] else []) + [Created]) == 1
  {
    var released := events + (if hadTexture then [Released] else []);
    if hadTexture {
      RecordEvent(events, Released);
    } else {
      assert released == events;
    }
    RecordEvent(released, Created);
  }

  /** `(uint8_t)(f * 255.0f)` for a float in [0, 1]: truncation toward zero. */
  function ToByte(f: real): (b: Byte)
    requires 0.0 <= f <= 1.0
    ensures (b as real) <= f * 255.0 < (b as real) + 1.0
    ensures f < 1.0 ==> b < 255
    ensures f == 1.0 ==> b == 255
  {
    (f * 255.0).Floor
  }

  /**
   * The 64x64 noise texels: one per generator output, in the order the
   * generator produces them (x fastest, then y). `rng` is the generator's
   * output sequence; the Xorshift generator itself is not part of this model.
   */
  method FillNoiseData(rng: seq<real>) returns (data: seq<Byte>)
    requires |rng| == NoiseTexSide * NoiseTexSide
    requires forall k :: 0 <= k < |rng| ==> 0.0 <= rng[k] <= 1.0
    ensures |data| == NoiseTexSide * NoiseTexSide
    ensures forall k :: 0 <= k < |data| ==> data[k] == ToByte(rng[k])
  {
    data := [];
    var y := 0;
    while y < NoiseTexSide
      invariant y <= NoiseTexSide
      invariant |data| == y * NoiseTexSide
      invariant forall k :: 0 <= k < |data| ==> data[k] == ToByte(rng[k])
    {
      var x := 0;
      while x < NoiseTexSide
        invariant x <= NoiseTexSide
        invariant |data| == y * NoiseTexSide + x
        invariant forall k :: 0 <= k < |data| ==> data[k] == ToByte(rng[k])
      {
        data := data + [ToByte(rng[|data|])];
        x := x + 1;
      }
      y := y + 1;
    }
  }
}
