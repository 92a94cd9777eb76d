/**
 * The volume actor: its parameters and setters, the one-time mesh and
 * noise-texture set-up, regeneration of the density field, and the
 * layer-editing state of its properties panel.
 */
module Renderer {
  import opened Geometry
  import opened NoiseLayers
  import opened VolumeField
  import opened GpuResources

  /** Face culling modes the renderer selects from. */
  datatype CullMode = CullFront | CullBack

  /** The fixed-function state applied before the draw call. */
  datatype RendererState = RendererState(cullingEnabled: bool, cullMode: CullMode, blendingEnabled: bool, depthTestEnabled: bool)

  /** Front faces culled so only back faces rasterise, blending on, depth test off. */
  const VolumeRenderState: RendererState := RendererState(true, CullFront, true, false)

  /** Voxel budgets the setter accepts: the open interval (8, 2000). */
  predicate AcceptsVirtualTexSize(t: nat) {
    8 < t < 2000
  }

  /** The stored voxel budget after asking to set it to `requested`. */
  function NextVirtualTexSize(current: U32, requested: U32): (r: U32)
    ensures r == requested <==> AcceptsVirtualTexSize(requested) || requested == current
    ensures r != requested ==> r == current
    ensures AcceptsVirtualTexSize(current) ==> AcceptsVirtualTexSize(r)
  {
    if 8 < requested && requested < 2000 then requested else current
  }

  /** The boundary cases: 8, 0, 2000 and 5000 are ignored, 9 and 1999 are stored. */
  lemma VirtualTexSizeBoundaries(current: U32)
    ensures NextVirtualTexSize(current, 8) == current
    ensures NextVirtualTexSize(current, 0) == current
    ensures NextVirtualTexSize(current, 2000) == current
    ensures NextVirtualTexSize(current, 5000) == current
    ensures NextVirtualTexSize(current, 9) == 9
    ensures NextVirtualTexSize(current, 1999) == 1999
  {
  }

  /** The selection the panel moves to after erasing the layer at `sel`, leaving `newSize` layers. */
  function SelectionAfterDelete(sel: nat, newSize: nat): (r: nat)
    requires sel <= newSize
    ensures 0 < newSize ==> r < newSize
    ensures sel > 0 ==> r + 1 == sel
    ensures sel == 0 ==> r == 0
  {
    if sel > 0 then sel - 1 else 0
  }

  /** The two layers the renderer starts with, built from a default-constructed layer. */
  function InitialLayers(defaultLayer: NoiseLayer): seq<NoiseLayer> {
    [defaultLayer.(offset := Vec3(120.34, 467.66, 53.87), scale := 3.0, opacity := 0.6),
     defaultLayer.(offset := Vec3(125.34, 46.66, 520.87), scale := 22.0, opacity := 0.2)]
  }

  /** The corner of the ray-marching bounds and of the drawn bounding box nearest -infinity. */
  function BoundMin(position: Vec3, volumeSize: Vec3): Vec3 {
    Vec3(position.x - volumeSize.x / 2.0, position.y - volumeSize.y / 2.0, position.z - volumeSize.z / 2.0)
  }

  /** The opposite corner of those bounds. */
  function BoundMax(position: Vec3, volumeSize: Vec3): (r: Vec3)
    ensures r.x - BoundMin(position, volumeSize).x == volumeSize.x
    ensures r.y - BoundMin(position, volumeSize).y == volumeSize.y
    ensures r.z - BoundMin(position, volumeSize).z == volumeSize.z
    ensures (r.x + BoundMin(position, volumeSize).x) / 2.0 == position.x
    ensures (r.y + BoundMin(position, volumeSize).y) / 2.0 == position.y
    ensures (r.z + BoundMin(position, volumeSize).z) / 2.0 == position.z
  {
    Vec3(position.x + volumeSize.x / 2.0, position.y + volumeSize.y / 2.0, position.z + volumeSize.z / 2.0)
  }

  /** Where the model matrix `translate(position) * scale(scale)` takes a mesh vertex. */
  function ModelTransform(position: Vec3, scale: Vec3, v: Vec3): Vec3 {
    Plus(position, Times(scale, v))
  }

  /**
   * A mesh vertex, built from the volume size `meshSize` that `init` saw and
   * drawn through the model matrix, lies on a corner of the bounds given to
   * the ray marcher from the current `volumeSize` when the scale is one and
   * the volume size has not changed since: on every axis it takes the
   * maximum where the unit corner has a 1 and the minimum otherwise.
   */
  lemma MeshSpansBounds(c: UVec3, position: Vec3, scale: Vec3, meshSize: Vec3, volumeSize: Vec3)
    requires IsUnitCorner(c)
    requires scale == Vec3(1.0, 1.0, 1.0) && meshSize == volumeSize
    ensures ModelTransform(position, scale, PlacedCorner(c, meshSize)).x ==
      if c.x == 1 then BoundMax(position, volumeSize).x else BoundMin(position, volumeSize).x
    ensures ModelTransform(position, scale, PlacedCorner(c, meshSize)).y ==
      if c.y == 1 then BoundMax(position, volumeSize).y else BoundMin(position, volumeSize).y
    ensures ModelTransform(position, scale, PlacedCorner(c, meshSize)).z ==
      if c.z == 1 then BoundMax(position, volumeSize).z else BoundMin(position, volumeSize).z
  {
  }

  /**
   * Without those two conditions the mesh and the bounds part: a far corner
   * reaches the upper bound on the x axis exactly when the scale times the
   * mesh's extent is the current extent (the y and z axes are alike).
   */
  lemma MeshMeetsBoundsExactly(c: UVec3, position: Vec3, scale: Vec3, meshSize: Vec3, volumeSize: Vec3)
    requires IsUnitCorner(c) && c.x == 1
    ensures ModelTransform(position, scale, PlacedCorner(c, meshSize)).x == BoundMax(position, volumeSize).x
      <==> scale.x * meshSize.x == volumeSize.x
  {
  }

  /** For instance, doubling the scale of a unit volume puts the far corner at 1, not at the bound 0.5. */
  lemma DoubledScaleMissesBounds()
    ensures ModelTransform(Vec3(0.0, 0.0, 0.0), Vec3(2.0, 2.0, 2.0), PlacedCorner(UVec3(1, 1, 1), Vec3(1.0, 1.0, 1.0))).x == 1.0
    ensures BoundMax(Vec3(0.0, 0.0, 0.0), Vec3(1.0, 1.0, 1.0)).x == 0.5
  {
  }

  class VolumeRenderer {
    var rendererState: RendererState

    // Placement and sizing.
    var position: Vec3
    var scale: Vec3
    var rotation: Vec3
    var volumeSize: Vec3
    var textureFitSize: Vec3
    var virtualTextureSize: U32
    var textureSize: UVec3

    // Ray-marching and lighting parameters.
    var minDensity: real
    var maxDensity: real
    var stepSize: real
    var opacity: real
    var alphaThreshold: real
    var lightMarchStepSize: real
    var lightBaseIntensity: real
    var lightAbsorptionCoefficient: real
    var lightDirection: Vec3
    var screenSize: Vec2

    var showPropertiesWindow: bool
    var showBoundingBox: bool

    // Layers, the generated field and the GPU objects built from them.
    var noiseLayers: seq<NoiseLayer>
    var volumeData: seq<Voxel>
    var densityTex: Option<Texture3D>
    /** The history of density-texture allocations and releases; it exists only for the proofs. */
    ghost var densityTexEvents: seq<TextureEvent>
    var noiseTex: Option<Texture2D>
    var vertices: seq<Vec3>
    var indices: seq<nat>

    // State the properties panel keeps between frames.
    var selectedLayer: U32
    var tempLayer: NoiseLayer

    /** The value of a default-constructed NoiseLayer. */
    const defaultLayer: NoiseLayer

    /** The density texture is owned: one is alive exactly when `densityTex` holds it, never two. */
    ghost predicate DensityTextureOwned()
      reads this`densityTex, this`densityTexEvents
    {
      AtMostOneLive(densityTexEvents) && Live(densityTexEvents) == if densityTex.Some? then 1 else 0
    }

    /** The panel's selection points into the list whenever the list is not empty. */
    predicate SelectionInRange()
      reads this
    {
      |noiseLayers| == 0 || selectedLayer < |noiseLayers|
    }

    /** The panel can read the selected layer: there is one. */
    predicate PanelReadable()
      reads this
    {
      selectedLayer < |noiseLayers|
    }

    /**
     * Construction sets the render state; the parameters whose initial
     * values are given elsewhere are left unconstrained.
     */
    constructor (defaultLayer: NoiseLayer)
      ensures rendererState == VolumeRenderState
      ensures this.defaultLayer == defaultLayer
      ensures noiseLayers == [] && volumeData == [] && vertices == [] && indices == []
      ensures densityTex == None && noiseTex == None && densityTexEvents == []
      ensures selectedLayer == 0 && tempLayer == defaultLayer
      ensures DensityTextureOwned() && SelectionInRange()
    {
      rendererState := VolumeRenderState;
      this.defaultLayer := defaultLayer;
      noiseLayers, volumeData, vertices, indices := [], [], [], [];
      densityTex, noiseTex, densityTexEvents := None, None, [];
      selectedLayer, tempLayer := 0, defaultLayer;
    }

    /**
     * Builds the cube mesh, appends the two initial layers, generates the
     * density field and fills the 64x64 noise texture from `rng`, the first
     * outputs of the seeded generator.
     */
    method Init(size: UVec3, value: NoiseValue, rng: seq<real>) returns (ok: bool)
      requires 0 < virtualTextureSize
      requires DensityTextureOwned()
      requires |rng| == NoiseTexSide * NoiseTexSide
      requires forall k :: 0 <= k < |rng| ==> 0.0 <= rng[k] <= 1.0
      modifies this`vertices, this`indices, this`noiseLayers, this`volumeData, this`densityTex,
        this`densityTexEvents, this`textureSize, this`noiseTex
      ensures ok
      ensures |vertices| == |UnitCorners()|
      ensures forall i :: 0 <= i < |vertices| ==> vertices[i] == PlacedCorner(UnitCorners()[i], volumeSize)
      ensures indices == CubeIndices()
      ensures noiseLayers == old(noiseLayers) + InitialLayers(defaultLayer)
      ensures textureSize == size
      ensures volumeData == Volume(size, ScaledLayers(noiseLayers, virtualTextureSize), value)
      ensures densityTex == Some(Texture3D(volumeData, size))
      ensures densityTexEvents == old(densityTexEvents) + (if old(densityTex).Some? then [Released] else []) + [Created]
      ensures DensityTextureOwned() && Live(densityTexEvents) == 1
      ensures noiseTex.Some? && noiseTex.value.width == NoiseTexSide && noiseTex.value.height == NoiseTexSide
      ensures |noiseTex.value.data| == |rng|
      ensures forall k :: 0 <= k < |rng| ==> noiseTex.value.data[k] == ToByte(rng[k])
    {
      BuildMesh();
      AppendInitialLayers();
      GenerateVolumeData(size, value);

      var noiseData := FillNoiseData(rng);
      noiseTex := Some(Texture2D(noiseData, NoiseTexSide, NoiseTexSide));
      ok := true;
    }

    /** The mesh part of `init`: the unit-cube corners, recentred and scaled by the volume size, and the index list. */
    method BuildMesh()
      modifies this`vertices, this`indices
      ensures |vertices| == |UnitCorners()|
      ensures forall i :: 0 <= i < |vertices| ==> vertices[i] == PlacedCorner(UnitCorners()[i], volumeSize)
      ensures indices == CubeIndices()
    {
      vertices := [];
      vertices := seq(8, i requires 0 <= i < 8 => CornerPosition(UnitCorners()[i]));
      var i := 0;
      while i < |vertices|
        invariant 0 <= i <= |vertices| == 8
        invariant forall j :: 0 <= j < i ==> vertices[j] == PlacedCorner(UnitCorners()[j], volumeSize)
        invariant forall j :: i <= j < 8 ==> vertices[j] == CornerPosition(UnitCorners()[j])
      {
        vertices := vertices[i := Plus(vertices[i], Recentre)];
        vertices := vertices[i := Times(vertices[i], volumeSize)];
        i := i + 1;
      }
      indices := CubeIndices();
    }

    /** The two `push_back`s of `init`. */
    method AppendInitialLayers()
      modifies this`noiseLayers
      ensures noiseLayers == old(noiseLayers) + InitialLayers(defaultLayer)
    {
      var initial := InitialLayers(defaultLayer);
      noiseLayers := noiseLayers + [initial[0]];
      noiseLayers := noiseLayers + [initial[1]];
      assert initial == [initial[0]] + [initial[1]];
    }

    /** The destructor: the density and noise textures are released. */
    method Destroy()
      requires DensityTextureOwned()
      modifies this`densityTex, this`densityTexEvents, this`noiseTex
      ensures densityTex == None && noiseTex == None
      ensures densityTexEvents == old(densityTexEvents) + if old(densityTex).Some? then [Released] else []
      ensures AtMostOneLive(densityTexEvents) && Live(densityTexEvents) == 0
    {
      if densityTex.Some? {
        RecordEvent(densityTexEvents, Released);
        densityTexEvents := densityTexEvents + [Released];
      }
      densityTex := None;
      noiseTex := None;
    }

    /** The per-generation copy of the layer list, each scale divided by the voxel budget. */
    method CopyScaledLayers() returns (layers: seq<NoiseLayer>)
      requires 0 < virtualTextureSize
      ensures layers == ScaledLayers(noiseLayers, virtualTextureSize)
    {
      layers := [];
      var i := 0;
      while i < |noiseLayers|
        invariant i <= |noiseLayers|
        invariant layers == ScaledLayers(noiseLayers[..i], virtualTextureSize)
      {
        layers := layers + [noiseLayers[i]];
        layers := layers[i := layers[i].(scale := layers[i].scale / virtualTextureSize as real)];
        assert noiseLayers[..i + 1][..i] == noiseLayers[..i];
        i := i + 1;
      }
      assert noiseLayers[..i] == noiseLayers;
    }

    /**
     * Regeneration for the given per-axis resolution: the previous density
     * texture is released before the new one is created, the field is
     * rebuilt from a scaled copy of the layers, and the layers themselves
     * are left as they were.
     */
    method GenerateVolumeData(size: UVec3, value: NoiseValue)
      requires 0 < virtualTextureSize
      requires DensityTextureOwned()
      modifies this`volumeData, this`densityTex, this`densityTexEvents, this`textureSize
      ensures textureSize == size
      ensures volumeData == Volume(size, ScaledLayers(noiseLayers, virtualTextureSize), value)
      ensures densityTex == Some(Texture3D(volumeData, size))
      ensures densityTexEvents == old(densityTexEvents) + (if old(densityTex).Some? then [Released] else []) + [Created]
      ensures DensityTextureOwned() && Live(densityTexEvents) == 1
    {
      textureSize := size;

      volumeData := [];
      if densityTex.Some? {
        densityTexEvents := densityTexEvents + [Released];
        densityTex := None;
      }

      var layers := CopyScaledLayers();
      volumeData := FillVolume(size, layers, value);

      densityTex := Some(Texture3D(volumeData, size));
      densityTexEvents := densityTexEvents + [Created];
      Regeneration(old(densityTexEvents), old(densityTex).Some?);
    }

    method SetPosition(position: Vec3)
      modifies this`position
      ensures this.position == position
    {
      this.position := position;
    }

    method SetScale(scale: Vec3)
      modifies this`scale
      ensures this.scale == scale
    {
      this.scale := scale;
    }

    method SetRotation(rotation: Vec3)
      modifies this`rotation
      ensures this.rotation == rotation
    {
      this.rotation := rotation;
    }

    method SetNoiseLayers(layers: seq<NoiseLayer>)
      modifies this`noiseLayers
      ensures noiseLayers == layers
    {
      noiseLayers := layers;
    }

    /** Stores the voxel budget only when it lies strictly between 8 and 2000. */
    method SetVirtualTexSize(texSize: U32)
      modifies this`virtualTextureSize
      ensures virtualTextureSize == NextVirtualTexSize(old(virtualTextureSize), texSize)
      ensures AcceptsVirtualTexSize(texSize) ==> virtualTextureSize == texSize
      ensures !AcceptsVirtualTexSize(texSize) ==> virtualTextureSize == old(virtualTextureSize)
    {
      if texSize > 8 && texSize < 2000 {
        virtualTextureSize := texSize;
      }
    }

    method SetVolumeSize(volumeSize: Vec3)
      modifies this`volumeSize
      ensures this.volumeSize == volumeSize
    {
      this.volumeSize := volumeSize;
    }

    method SetTextureFitSize(fitSize: Vec3)
      modifies this`textureFitSize
      ensures textureFitSize == fitSize
    {
      textureFitSize := fitSize;
    }

    method SetMinDensity(density: real)
      modifies this`minDensity
      ensures minDensity == density
    {
      minDensity := density;
    }

    method SetMaxDensity(density: real)
      modifies this`maxDensity
      ensures maxDensity == density
    {
      maxDensity := density;
    }

    method SetStepSize(stepSize: real)
      modifies this`stepSize
      ensures this.stepSize == stepSize
    {
      this.stepSize := stepSize;
    }

    /** The opacity setter as written: its body only evaluates the field, so nothing is stored. */
    method SetOpacity(opacity: real)
      ensures this.opacity == old(this.opacity)
    {
    }

    /** The opacity setter as evidently intended: it stores its argument. */
    method SetOpacityIntended(opacity: real)
      modifies this`opacity
      ensures this.opacity == opacity
    {
      this.opacity := opacity;
    }

    method SetLightMarchStepSize(stepSize: real)
      modifies this`lightMarchStepSize
      ensures lightMarchStepSize == stepSize
    {
      lightMarchStepSize := stepSize;
    }

    method SetLightBaseIntensity(baseIntensity: real)
      modifies this`lightBaseIntensity
      ensures lightBaseIntensity == baseIntensity
    {
      lightBaseIntensity := baseIntensity;
    }

    method SetLightAbsorptionCoefficient(absorption: real)
      modifies this`lightAbsorptionCoefficient
      ensures lightAbsorptionCoefficient == absorption
    {
      lightAbsorptionCoefficient := absorption;
    }

    method SetLightDirection(direction: Vec3)
      modifies this`lightDirection
      ensures lightDirection == direction
    {
      lightDirection := direction;
    }

    method SetScreenSize(screenSize: Vec2)
      modifies this`screenSize
      ensures this.screenSize == screenSize
    {
      this.screenSize := screenSize;
    }

    /** The Ctrl+P handling of the draw call as written: `!=` compares and discards, so nothing toggles. */
    method PropertiesShortcut(controlHeld: bool, pPressed: bool)
      ensures showPropertiesWindow == old(showPropertiesWindow)
    {
    }

    /** The Ctrl+P handling as evidently intended: the window's visibility flips. */
    method PropertiesShortcutIntended(controlHeld: bool, pPressed: bool)
      modifies this`showPropertiesWindow
      ensures showPropertiesWindow == if controlHeld && pPressed then !old(showPropertiesWindow) else old(showPropertiesWindow)
    {
      if controlHeld && pPressed {
        showPropertiesWindow := !showPropertiesWindow;
      }
    }

    /** The names the layer combo lists, "Layer1" for the first layer onwards. */
    method LayerNames() returns (names: seq<string>)
      ensures |names| == |noiseLayers|
      ensures forall i :: 0 <= i < |names| ==> names[i] == LayerName(i)
    {
      names := [];
      var i := 0;
      while i < |noiseLayers|
        invariant i <= |noiseLayers|
        invariant |names| == i
        invariant forall j :: 0 <= j < i ==> names[j] == LayerName(j)
      {
        names := names + ["Layer" + NatToString(i + 1)];
        i := i + 1;
      }
    }

    /** Whether the combo highlights entry `i`: its name equals the selected layer's name. */
    function EntryHighlighted(i: nat): (b: bool)
      reads this
      requires PanelReadable() && i < |noiseLayers|
      ensures b <==> i == selectedLayer
    {
      LayerNamesDistinct(i, selectedLayer);
      LayerName(selectedLayer) == LayerName(i)
    }

    /** Choosing entry `i` of the layer combo selects that layer and copies it to the scratch layer. */
    method SelectLayer(i: U32)
      requires i < |noiseLayers|
      modifies this`selectedLayer, this`tempLayer
      ensures selectedLayer == i && tempLayer == noiseLayers[i]
      ensures PanelReadable()
    {
      selectedLayer := i;
      tempLayer := noiseLayers[selectedLayer];
    }

    /**
     * The noise-type combo position shown for the selected layer, `type / 2`,
     * read only when there is a selected layer to read it from. A type the
     * combo stored reads back as its choice, and the position names one of
     * the two combo labels exactly when the stored type is -1 to 3.
     */
    function ChosenNoiseType(): (t: Option<int>)
      reads this
      ensures t.Some? <==> PanelReadable()
      ensures forall k :: 0 <= k < NoiseTypeCount ==>
        (PanelReadable() && noiseLayers[selectedLayer].noiseType == EncodeNoiseType(k) ==> t == Some(k))
      ensures t.Some? ==> (0 <= t.value < NoiseTypeCount <==>
        -1 <= noiseLayers[selectedLayer].noiseType < 2 * NoiseTypeCount)
    {
      if selectedLayer < |noiseLayers| then Some(DecodeNoiseType(noiseLayers[selectedLayer].noiseType)) else None
    }

    /** Choosing noise type `i` stores 2*i+1 in the selected layer; reading it back gives `i`. */
    method SetNoiseType(i: nat)
      requires i < NoiseTypeCount
      requires PanelReadable()
      modifies this`noiseLayers
      ensures noiseLayers == old(noiseLayers)[selectedLayer := old(noiseLayers)[selectedLayer].(noiseType := 2 * i + 1)]
      ensures PanelReadable() && ChosenNoiseType() == Some(i)
    {
      noiseLayers := noiseLayers[selectedLayer := noiseLayers[selectedLayer].(noiseType := EncodeNoiseType(i))];
    }

    /** The blend-mode combo position shown for the selected layer, `(int)blend`, read only when there is one. */
    function ChosenBlendMode(): (i: Option<nat>)
      reads this
      ensures i.Some? <==> PanelReadable()
      ensures i.Some? ==> i.value < BlendModeCount && BlendFromIndex(i.value) == noiseLayers[selectedLayer].blend
    {
      if selectedLayer < |noiseLayers| then Some(BlendIndex(noiseLayers[selectedLayer].blend)) else None
    }

    /** Choosing blend mode `i` stores `(LayerBlending)i` in the selected layer; reading it back gives `i`. */
    method SetBlendMode(i: nat)
      requires i < BlendModeCount
      requires PanelReadable()
      modifies this`noiseLayers
      ensures noiseLayers == old(noiseLayers)[selectedLayer := old(noiseLayers)[selectedLayer].(blend := BlendFromIndex(i))]
      ensures PanelReadable() && ChosenBlendMode() == Some(i)
    {
      noiseLayers := noiseLayers[selectedLayer := noiseLayers[selectedLayer].(blend := BlendFromIndex(i))];
    }

    /** "Add Layer": appends a default layer and selects it, the new size minus one stored as a uint32_t. */
    method AddLayer()
      modifies this`noiseLayers, this`selectedLayer
      ensures noiseLayers == old(noiseLayers) + [defaultLayer]
      ensures selectedLayer == (|noiseLayers| - 1) % 0x1_0000_0000
      ensures |noiseLayers| <= 0x1_0000_0000 ==> selectedLayer == |noiseLayers| - 1 && PanelReadable()
    {
      noiseLayers := noiseLayers + [defaultLayer];
      selectedLayer := (|noiseLayers| - 1) % 0x1_0000_0000;
    }

    /**
     * "Delete Layer": on a non-empty list, erases the selected layer; if
     * layers remain, the selection moves one back (staying at 0 when it was
     * 0) and the newly selected layer is copied to the scratch layer.
     */
    method DeleteLayer()
      requires SelectionInRange()
      modifies this`noiseLayers, this`selectedLayer, this`tempLayer
      ensures old(|noiseLayers|) == 0 ==>
        noiseLayers == old(noiseLayers) && selectedLayer == old(selectedLayer) && tempLayer == old(tempLayer)
      ensures old(|noiseLayers|) > 0 ==> noiseLayers == RemoveAt(old(noiseLayers), old(selectedLayer))
      ensures old(|noiseLayers|) > 0 && |noiseLayers| > 0 ==>
        selectedLayer == SelectionAfterDelete(old(selectedLayer), |noiseLayers|) && tempLayer == noiseLayers[selectedLayer]
      ensures old(|noiseLayers|) > 0 && old(selectedLayer) > 0 ==>
        noiseLayers[selectedLayer] == old(noiseLayers)[old(selectedLayer) - 1]
      ensures old(|noiseLayers|) > 1 && old(selectedLayer) == 0 ==>
        selectedLayer == 0 && noiseLayers[0] == old(noiseLayers)[1]
      ensures |noiseLayers| == 0 ==> selectedLayer == old(selectedLayer) && tempLayer == old(tempLayer)
      ensures SelectionInRange()
    {
      if |noiseLayers| >= 1 {
        noiseLayers := RemoveAt(noiseLayers, selectedLayer);
        if |noiseLayers| >= 1 {
          if selectedLayer > 0 {
            selectedLayer := selectedLayer - 1;
          }
          tempLayer := noiseLayers[selectedLayer];
        }
      }
    }
  }

  /**
   * Deleting the only layer empties the list while the selection stays 0, so
   * the panel's next unguarded read of the selected layer has nothing to read.
   */
  method DeleteOnlyLayerEmptiesPanel(r: VolumeRenderer)
    requires |r.noiseLayers| == 1 && r.selectedLayer == 0
    modifies r
    ensures r.noiseLayers == [] && r.selectedLayer == 0
    ensures !r.PanelReadable()
    ensures r.ChosenNoiseType() == None && r.ChosenBlendMode() == None
  {
    r.DeleteLayer();
  }

  /** Under the as-written setter, asking for a new opacity leaves the old one in place. */
  method OpacityNotStored(r: VolumeRenderer, requested: real) returns (stored: real)
    requires r.opacity != requested
    ensures stored != requested
  {
    r.SetOpacity(requested);
    stored := r.opacity;
  }

  /** Under the corrected setter, the requested opacity is what is stored. */
  method OpacityStored(r: VolumeRenderer, requested: real) returns (stored: real)
    modifies r
    ensures stored == requested
  {
    r.SetOpacityIntended(requested);
    stored := r.opacity;
  }

  /** Under the as-written shortcut, Ctrl+P leaves the properties window as it was. */
  method ShortcutDoesNotToggle(r: VolumeRenderer) returns (before: bool, after: bool)
    ensures after == before
  {
    before := r.showPropertiesWindow;
    r.PropertiesShortcut(true, true);
    after := r.showPropertiesWindow;
  }

  /** Under the corrected shortcut, Ctrl+P flips the properties window. */
  method ShortcutToggles(r: VolumeRenderer) returns (before: bool, after: bool)
    modifies r
    ensures after == !before
  {
    before := r.showPropertiesWindow;
    r.PropertiesShortcutIntended(true, true);
    after := r.showPropertiesWindow;
  }
}
