/**
 * The noise-layer description edited by the properties panel, the integer
 * encodings the panel's combo boxes use for a layer's noise kind and blend
 * mode, the layer names it lists, and the per-generation copy of the layer
 * list whose scales are divided by the virtual texture size.
 */
module NoiseLayers {
  import opened Geometry

  /** How a layer is composited into the accumulated density. */
  datatype LayerBlending = Add | Subtract | Multiply | Divide

  /**
   * One noise contribution. `noiseType` keeps the raw value of the source's
   * NoiseType enumeration, which the panel writes as 2*i+1 for choice i.
   */
  datatype NoiseLayer = NoiseLayer(offset: Vec3, scale: real, opacity: real, noiseType: int, blend: LayerBlending)

  /** Entries of the panel's "Noise Type" combo ("Perin", "Worley") and "Blend Mode" combo. */
  const NoiseTypeCount: nat := 2
  const BlendModeCount: nat := 4

  /** The stored NoiseType for combo choice `i`. */
  function EncodeNoiseType(i: nat): (t: int)
    ensures t % 2 == 1 && t > 0
    ensures DecodeNoiseType(t) == i
  {
    2 * i + 1
  }

  /** The combo choice read back from a stored NoiseType: `type / 2`, truncating toward zero as C++ does. */
  function DecodeNoiseType(t: int): (i: int)
    ensures t >= 0 ==> 2 * i <= t < 2 * i + 2
    ensures t < 0 ==> 2 * i - 2 < t <= 2 * i
  {
    if t >= 0 then t / 2 else -((-t) / 2)
  }

  /** Two combo choices never share a stored NoiseType. */
  lemma EncodeNoiseTypeInjective(i: nat, j: nat)
    ensures EncodeNoiseType(i) == EncodeNoiseType(j) <==> i == j
  {
    if EncodeNoiseType(i) == EncodeNoiseType(j) {
      assert DecodeNoiseType(EncodeNoiseType(i)) == i;
    }
  }

  /** `(int)blend`: the position of a blend mode in the "Blend Mode" combo. */
  function BlendIndex(b: LayerBlending): (i: nat)
    ensures i < BlendModeCount
  {
    match b
    case Add => 0
    case Subtract => 1
    case Multiply => 2
    case Divide => 3
  }

  /** `(LayerBlending)i` for a combo position `i`. */
  function BlendFromIndex(i: nat): (b: LayerBlending)
    requires i < BlendModeCount
    ensures BlendIndex(b) == i
  {
    if i == 0 then Add else if i == 1 then Subtract else if i == 2 then Multiply else Divide
  }

  /** Casting a blend mode to its index and back gives it back. */
  lemma BlendIndexRoundTrip(b: LayerBlending)
    ensures BlendFromIndex(BlendIndex(b)) == b
  {
  }

  /** The layer copy the generator evaluates: `layer.scale / virtualTextureSize`, all else kept. */
  function ScaledLayer(layer: NoiseLayer, virtualTextureSize: nat): (r: NoiseLayer)
    requires 0 < virtualTextureSize
    ensures r.scale * (virtualTextureSize as real) == layer.scale
    ensures r.offset == layer.offset && r.opacity == layer.opacity
    ensures r.noiseType == layer.noiseType && r.blend == layer.blend
  {
    layer.(scale := layer.scale / virtualTextureSize as real)
  }

  /** Per-generation copy of a layer list, every scale divided by the virtual texture size. */
  function ScaledLayers(layers: seq<NoiseLayer>, virtualTextureSize: nat): (r: seq<NoiseLayer>)
    requires 0 < virtualTextureSize
    ensures |r| == |layers|
    ensures forall i :: 0 <= i < |r| ==> r[i] == ScaledLayer(layers[i], virtualTextureSize)
  {
    if layers == [] then []
    else ScaledLayers(layers[..|layers| - 1], virtualTextureSize) + [ScaledLayer(layers[|layers| - 1], virtualTextureSize)]
  }

  /** One decimal digit. */
  function DigitChar(d: nat): (c: char)
    requires d < 10
    ensures '0' <= c <= '9' && (c as int) - ('0' as int) == d
  {
    (48 + d) as char
  }

  /** std::to_string of a non-negative number: its decimal digits, most significant first. */
  function NatToString(n: nat): (s: string)
    ensures 1 <= |s|
    ensures forall k :: 0 <= k < |s| ==> '0' <= s[k] <= '9'
    ensures n >= 10 <==> |s| >= 2
    ensures |s| >= 2 ==> s[0] != '0'
    decreases n
  {
    if n < 10 then [DigitChar(n)] else NatToString(n / 10) + [DigitChar(n % 10)]
  }

  /** Different numbers are printed differently. */
  lemma {:induction false} NatToStringInjective(a: nat, b: nat)
    requires NatToString(a) == NatToString(b)
    ensures a == b
    decreases a
  {
    var s := NatToString(a);
    if a >= 10 && b >= 10 {
      assert NatToString(a / 10) == s[..|s| - 1] == NatToString(b / 10);
      NatToStringInjective(a / 10, b / 10);
      assert DigitChar(a % 10) == s[|s| - 1] == DigitChar(b % 10);
    }
  }

  /** The name the panel lists for the layer at position `i`: "Layer" followed by i+1. */
  function LayerName(i: nat): (name: string)
    ensures |name| >= 6 && name[..5] == "Layer"
    ensures forall k :: 5 <= k < |name| ==> '0' <= name[k] <= '9'
    ensures name[5] != '0'
  {
    var digits := NatToString(i + 1);
    assert |digits| == 1 ==> digits == [DigitChar(i + 1)];
    "Layer" + digits
  }

  /** Layer names identify their layer: the panel's name comparison is a comparison of positions. */
  lemma LayerNamesDistinct(i: nat, j: nat)
    ensures LayerName(i) == LayerName(j) <==> i == j
  {
    if LayerName(i) == LayerName(j) {
      assert NatToString(i + 1) == LayerName(i)[5..] == LayerName(j)[5..] == NatToString(j + 1);
      NatToStringInjective(i + 1, j + 1);
    }
  }

  /** `erase(begin() + i)`: the list without its element `i`, the others kept in order. */
  function RemoveAt<T>(s: seq<T>, i: nat): (r: seq<T>)
    requires i < |s|
    ensures |r| == |s| - 1
    ensures forall j :: 0 <= j < i ==> r[j] == s[j]
    ensures forall j :: i <= j < |r| ==> r[j] == s[j + 1]
    ensures multiset(r) + multiset{s[i]} == multiset(s)
  {
    assert s == s[..i] + [s[i]] + s[i + 1..];
    s[..i] + s[i + 1..]
  }
}
