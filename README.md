# VolumeRenderer — a Dafny model

This project models the volume actor of a small OpenGL engine, `Engine::VolumeRenderer`.
The actor ray-marches a box-shaped cloud. It keeps the marching and lighting parameters
behind setters. It builds a fixed cube mesh once. It fills a CPU-side density field
from a list of noise layers and uploads it as a 3D texture, replacing the previous one.
Its properties panel lets the user add, delete, select and edit the layers.

The model is imperative where the source is. `Renderer.VolumeRenderer` is a class whose
fields are the renderer's members. Its methods change only the fields their
`modifies` clauses name, and their `ensures` give the new value of every such field.
The history of density-texture allocations is a ghost field used only in the proofs.
The computing loops of the source are `while` loops with invariants: the vertex loop
of `init`, the noise-texture loop, the layer-copy loop, the z/y/x fill loop and the
layer-name loop. The three combo-box loops of the panel (lines 324-334, 344-354 and
364-374) only draw entries and react to the one entry the user clicks. They are
modelled as the single-choice methods `SelectLayer`, `SetNoiseType` and
`SetBlendMode`, which take the clicked entry as their argument.

- `Geometry`: vectors, the unit-cube corners and the 36-entry index list.
- `NoiseLayers`: the layer record, the combo-box encodings, decimal layer names,
  the per-generation scaled copy of the layer list, and `erase` at an index.
- `VolumeField`: the density field as a function of size, layers and noise generator.
  It has layout lemmas (index `x + sx*(y + sy*z)`, mask 1) and the fill loop proved
  against that function.
- `GpuResources`: the texture values and the density-texture lifetime. The lifetime is
  a log of creations and releases, with the invariant that at most one texture is alive.
  This module also holds the 64x64 noise-texture fill.
- `Renderer`: the class itself, with the voxel-budget filter, the drawing bounds,
  the panel's selection logic and the scenarios behind the findings.

Some inputs come from outside the class:

- The noise generator's `Value(point, layers)` is a function parameter (`NoiseValue`).
- The Xorshift generator's first 4096 outputs are a sequence parameter of `Init`. They are
  assumed to lie in [0, 1] (see "## Left out").
- The per-axis texture resolution is a parameter of `GenerateVolumeData`.
- `float` is modelled as `real`.
- `uint32_t` is the subset type `U32`, also the component type of `glm::uvec3` (`UVec3`, the texture resolution), and the one unsigned wrap-around of the panel
  (`noiseLayers.size() - 1` stored in a `uint32_t`) is written out.
- The header that declares the members and their default values is not part of this
  model. The constructor therefore leaves the parameters it does not set unconstrained.
  It does start both texture pointers as absent (`nullptr`), and the vectors as empty.
  The `nullptr` start is an assumption about that header: without it, the first
  `delete densityTex` at line 425 would free an indeterminate pointer.
  The order of `LayerBlending`'s enumerators is also taken from the panel, not the header:
  Add, Subtract, Multiply and Divide are 0 to 3, in the order of the blend combo's labels
  at line 359.
- The value of a default-constructed `NoiseLayer` is a constructor parameter, `defaultLayer`.
- The panel's function-local statics `selected_layer` and `tempLayer` are fields. In the source
  every renderer shares one copy of each (see "## Left out").

## Model

| member | source | states |
|---|---|---|
| Geometry.UnitCorners | Engine/src/Renderer/VolumeRenderer.cpp:28-37 | eight mesh corners, each with every coordinate 0 or 1 |
| Geometry.CubeIndices | Engine/src/Renderer/VolumeRenderer.cpp:44-51 | 36 indices (three per triangle, twelve triangles), each naming one of the 8 vertices |
| Geometry.PlacedCorner | Engine/src/Renderer/VolumeRenderer.cpp:39-42 | after shifting by -0.5 and scaling, each corner sits at plus or minus half the volume size on every axis: plus where the unit corner has a 1 |
| NoiseLayers.EncodeNoiseType | Engine/src/Renderer/VolumeRenderer.cpp:349 | the stored type for choice i is odd and positive, and `type / 2` reads back i |
| NoiseLayers.DecodeNoiseType | Engine/src/Renderer/VolumeRenderer.cpp:340 | `type / 2` with C++ truncation toward zero: bounds for non-negative and for negative types |
| NoiseLayers.EncodeNoiseTypeInjective | Engine/src/Renderer/VolumeRenderer.cpp:349 | two choices store the same type exactly when they are the same choice |
| NoiseLayers.BlendIndex | Engine/src/Renderer/VolumeRenderer.cpp:360 | `(int)blend` is a valid position of the four-entry blend combo |
| NoiseLayers.BlendFromIndex | Engine/src/Renderer/VolumeRenderer.cpp:369 | `(LayerBlending)i` cast back to int gives i |
| NoiseLayers.BlendIndexRoundTrip | Engine/src/Renderer/VolumeRenderer.cpp:360-369 | a blend mode cast to int and back is itself |
| NoiseLayers.ScaledLayer | Engine/src/Renderer/VolumeRenderer.cpp:431-432 | the copied layer's scale times the voxel budget is the original scale; offset, opacity, type and blend are kept |
| NoiseLayers.ScaledLayers | Engine/src/Renderer/VolumeRenderer.cpp:429-433 | the copy has as many layers as the list, and layer i is layer i with its scale divided by the voxel budget |
| NoiseLayers.NatToString | Engine/src/Renderer/VolumeRenderer.cpp:314 | `std::to_string` of a natural: non-empty, all digits, two or more digits exactly from 10 on, no leading zero |
| NoiseLayers.NatToStringInjective | Engine/src/Renderer/VolumeRenderer.cpp:314 | different numbers print differently |
| NoiseLayers.LayerName | Engine/src/Renderer/VolumeRenderer.cpp:314 | the name of layer i is "Layer" followed by a non-empty run of decimal digits with no leading zero |
| NoiseLayers.LayerNamesDistinct | Engine/src/Renderer/VolumeRenderer.cpp:312-315 | "Layer"+(i+1) equals "Layer"+(j+1) exactly when i == j |
| NoiseLayers.RemoveAt | Engine/src/Renderer/VolumeRenderer.cpp:393 | `erase(begin()+i)`: one element shorter, elements before i kept, those after shifted down by one, and the removed element is the only one missing |
| VolumeField.Row | Engine/src/Renderer/VolumeRenderer.cpp:437-442 | a row of n voxels whose x-th voxel is the noise value at (x, y, z) with mask 1 |
| VolumeField.SliceLength | Engine/src/Renderer/VolumeRenderer.cpp:436-443 | a slice of n rows of width w holds w*n voxels |
| VolumeField.SliceAt | Engine/src/Renderer/VolumeRenderer.cpp:436-443 | within a slice, voxel (x, y) is at position x + w*y |
| VolumeField.SlicesLength | Engine/src/Renderer/VolumeRenderer.cpp:435-444 | n slices hold (sx*sy)*n voxels |
| VolumeField.LinearIndexSplit | Engine/src/Renderer/VolumeRenderer.cpp:435-444 | x + sx*(y + sy*z) is the in-slice index plus z whole slices |
| VolumeField.SliceOffset | Engine/src/Renderer/VolumeRenderer.cpp:435-444 | within the first n slices, slice z starts at position (sx*sy)*z |
| VolumeField.SlicesAt | Engine/src/Renderer/VolumeRenderer.cpp:435-444 | the first n slices hold voxel (x, y, z) at its linear index |
| VolumeField.Volume | Engine/src/Renderer/VolumeRenderer.cpp:435-444 | the whole contents of `volumeData` after the fill: (sx*sy)*sz voxels, every mask channel 1 |
| VolumeField.VolumeLayout | Engine/src/Renderer/VolumeRenderer.cpp:435-444 | the field holds sx*sy*sz voxels, and the one at x + sx*(y + sy*z) is (Value((x,y,z), layers), 1) |
| VolumeField.SlicesMask | Engine/src/Renderer/VolumeRenderer.cpp:441 | every mask channel of the field is 1 |
| VolumeField.SliceMask | Engine/src/Renderer/VolumeRenderer.cpp:441 | every mask channel of a slice is 1 |
| VolumeField.FillVolume | Engine/src/Renderer/VolumeRenderer.cpp:435-444 | the z/y/x loop produces exactly the field of the given size |
| GpuResources.RecordEvent | Engine/src/Renderer/VolumeRenderer.cpp:424-427 | releasing the live texture, or creating one when none is alive, keeps at most one texture alive throughout |
| GpuResources.Regeneration | Engine/src/Renderer/VolumeRenderer.cpp:423-446 | release-if-present then create leaves exactly one live texture, and never two at once |
| GpuResources.ToByte | Engine/src/Renderer/VolumeRenderer.cpp:85 | `(uint8_t)(f * 255.0f)` for f in [0, 1] is the truncation of f*255: below 255 for f < 1, and 255 at f = 1 |
| GpuResources.FillNoiseData | Engine/src/Renderer/VolumeRenderer.cpp:80-89 | 4096 texels, texel k being the byte of the k-th generator output (each output in [0, 1]) |
| Renderer.NextVirtualTexSize | Engine/src/Renderer/VolumeRenderer.cpp:205-208 | the request is stored exactly when it lies in (8, 2000) or equals the current value, otherwise the current value stays; an in-range budget stays in range |
| Renderer.VirtualTexSizeBoundaries | Engine/src/Renderer/VolumeRenderer.cpp:205-208 | 8, 0, 2000 and 5000 are ignored; 9 and 1999 are stored |
| Renderer.SelectionAfterDelete | Engine/src/Renderer/VolumeRenderer.cpp:394-397 | the selection moves one back, or stays at 0, and lies within the shortened list |
| Renderer.BoundMax | Engine/src/Renderer/VolumeRenderer.cpp:140-141 | the `boundMax` uniform, also the upper corner of the box drawn at line 410: it exceeds the `boundMin` uniform (`BoundMin`, position - size/2) by the volume size on every axis, and the two are centred on the position |
| Renderer.MeshSpansBounds | Engine/src/Renderer/VolumeRenderer.cpp:106-141 | with unit scale, and a volume size unchanged since the mesh was built, every mesh vertex under the model matrix `translate(position) * scale(scale)` is a corner of the box from position - size/2 to position + size/2 given to the ray marcher |
| Renderer.MeshMeetsBoundsExactly | Engine/src/Renderer/VolumeRenderer.cpp:106-141 | a far corner reaches the upper bound on an axis exactly when the scale times the mesh's extent equals the current extent |
| Renderer.DoubledScaleMissesBounds | Engine/src/Renderer/VolumeRenderer.cpp:106-141 | at scale 2, a unit volume's far corner is drawn at 1 while the bound is 0.5 |
| Renderer.VolumeRenderer.constructor | Engine/src/Renderer/VolumeRenderer.cpp:6-13 | culling on with front faces culled, blending on, depth test off; no layers and no textures yet |
| Renderer.VolumeRenderer.Init | Engine/src/Renderer/VolumeRenderer.cpp:25-92 | the mesh is the eight placed corners and the 36 indices; the two initial layers are appended; the field and density texture are regenerated, the old texture released before the new one is created, and exactly one is alive afterwards; the 64x64 noise texture holds the generator's bytes; returns true |
| Renderer.VolumeRenderer.BuildMesh | Engine/src/Renderer/VolumeRenderer.cpp:26-51 | the vertex loop turns the eight listed corners into the placed corners, and the index list is the cube's |
| Renderer.VolumeRenderer.AppendInitialLayers | Engine/src/Renderer/VolumeRenderer.cpp:64-76 | the two preset layers `InitialLayers` (offsets (120.34, 467.66, 53.87) and (125.34, 46.66, 520.87), scales 3 and 22, opacities 0.6 and 0.2, otherwise a default-constructed layer) are appended after the existing ones |
| Renderer.VolumeRenderer.Destroy | Engine/src/Renderer/VolumeRenderer.cpp:15-23 | both textures are released and no density texture remains alive |
| Renderer.VolumeRenderer.CopyScaledLayers | Engine/src/Renderer/VolumeRenderer.cpp:429-433 | the loop builds the scaled copy of the layer list and changes nothing |
| Renderer.VolumeRenderer.GenerateVolumeData | Engine/src/Renderer/VolumeRenderer.cpp:413-447 | the field is the volume of the given size over the scaled layers; the old density texture is released before the new one is created; exactly one is alive afterwards; the layer list is untouched |
| Renderer.VolumeRenderer.SetPosition | Engine/src/Renderer/VolumeRenderer.cpp:161-163 | stores the position, nothing else changes |
| Renderer.VolumeRenderer.SetScale | Engine/src/Renderer/VolumeRenderer.cpp:165-167 | stores the scale, nothing else changes |
| Renderer.VolumeRenderer.SetRotation | Engine/src/Renderer/VolumeRenderer.cpp:169-171 | stores the rotation, nothing else changes |
| Renderer.VolumeRenderer.SetNoiseLayers | Engine/src/Renderer/VolumeRenderer.cpp:185-187 | replaces the layer list, nothing else changes |
| Renderer.VolumeRenderer.SetVirtualTexSize | Engine/src/Renderer/VolumeRenderer.cpp:205-208 | stores the budget exactly when it lies in (8, 2000), otherwise leaves it |
| Renderer.VolumeRenderer.SetVolumeSize | Engine/src/Renderer/VolumeRenderer.cpp:210-212 | stores the volume size, nothing else changes |
| Renderer.VolumeRenderer.SetTextureFitSize | Engine/src/Renderer/VolumeRenderer.cpp:218-220 | stores the fit size, nothing else changes |
| Renderer.VolumeRenderer.SetMinDensity | Engine/src/Renderer/VolumeRenderer.cpp:226-228 | stores the minimum density, nothing else changes |
| Renderer.VolumeRenderer.SetMaxDensity | Engine/src/Renderer/VolumeRenderer.cpp:230-232 | stores the maximum density, nothing else changes |
| Renderer.VolumeRenderer.SetStepSize | Engine/src/Renderer/VolumeRenderer.cpp:242-244 | stores the step size, nothing else changes |
| Renderer.VolumeRenderer.SetOpacity | Engine/src/Renderer/VolumeRenderer.cpp:250-252 | as written: nothing changes, the opacity keeps its old value |
| Renderer.VolumeRenderer.SetOpacityIntended | Engine/src/Renderer/VolumeRenderer.cpp:250-252 | corrected: stores the opacity, nothing else changes |
| Renderer.VolumeRenderer.SetLightMarchStepSize | Engine/src/Renderer/VolumeRenderer.cpp:258-260 | stores the light step size, nothing else changes |
| Renderer.VolumeRenderer.SetLightBaseIntensity | Engine/src/Renderer/VolumeRenderer.cpp:262-264 | stores the base intensity, nothing else changes |
| Renderer.VolumeRenderer.SetLightAbsorptionCoefficient | Engine/src/Renderer/VolumeRenderer.cpp:266-268 | stores the absorption coefficient, nothing else changes |
| Renderer.VolumeRenderer.SetLightDirection | Engine/src/Renderer/VolumeRenderer.cpp:282-284 | stores the light direction, nothing else changes |
| Renderer.VolumeRenderer.SetScreenSize | Engine/src/Renderer/VolumeRenderer.cpp:286-288 | stores the screen size, nothing else changes |
| Renderer.VolumeRenderer.PropertiesShortcut | Engine/src/Renderer/VolumeRenderer.cpp:102-104 | as written: Ctrl+P leaves the properties window's visibility unchanged |
| Renderer.VolumeRenderer.PropertiesShortcutIntended | Engine/src/Renderer/VolumeRenderer.cpp:102-104 | corrected: Ctrl+P flips the visibility, any other input leaves it |
| Renderer.VolumeRenderer.LayerNames | Engine/src/Renderer/VolumeRenderer.cpp:312-315 | one name per layer, the i-th being "Layer"+(i+1) |
| Renderer.VolumeRenderer.EntryHighlighted | Engine/src/Renderer/VolumeRenderer.cpp:321-325 | the name comparison highlights entry i exactly when i is the selected layer |
| Renderer.VolumeRenderer.SelectLayer | Engine/src/Renderer/VolumeRenderer.cpp:326-330 | the chosen entry becomes the selection and its layer is copied to the scratch layer |
| Renderer.VolumeRenderer.ChosenNoiseType | Engine/src/Renderer/VolumeRenderer.cpp:340-341 | defined exactly when there is a selected layer; a type 2*k+1 stored by the combo reads back as choice k; the position indexes the two-entry `noise_types` array within bounds exactly when the stored type is -1 to 3 (C++ division truncates -1/2 to 0) |
| Renderer.VolumeRenderer.SetNoiseType | Engine/src/Renderer/VolumeRenderer.cpp:347-350 | stores 2*i+1 in the selected layer only, and the combo then shows choice i |
| Renderer.VolumeRenderer.ChosenBlendMode | Engine/src/Renderer/VolumeRenderer.cpp:360 | defined exactly when there is a selected layer, and then a combo position that casts back to its blend mode |
| Renderer.VolumeRenderer.SetBlendMode | Engine/src/Renderer/VolumeRenderer.cpp:367-370 | stores blend mode i in the selected layer only, and the combo then shows position i |
| Renderer.VolumeRenderer.AddLayer | Engine/src/Renderer/VolumeRenderer.cpp:383-388 | appends one default layer, keeps the earlier ones, and selects size-1 (as a uint32_t), which is the new layer |
| Renderer.VolumeRenderer.DeleteLayer | Engine/src/Renderer/VolumeRenderer.cpp:391-400 | on an empty list nothing changes; otherwise exactly the selected layer is erased, and if layers remain the selection moves to the previous layer (or stays at 0) and is copied to the scratch layer; the selection stays in range |
| Renderer.DeleteOnlyLayerEmptiesPanel | Engine/src/Renderer/VolumeRenderer.cpp:391-400 | deleting the only layer leaves an empty list with selection 0, so the panel has no selected layer to read |
| Renderer.OpacityNotStored | Engine/src/Renderer/VolumeRenderer.cpp:250-252 | with the setter as written, a requested opacity different from the current one is not what is stored |
| Renderer.OpacityStored | Engine/src/Renderer/VolumeRenderer.cpp:250-252 | with the corrected setter, the requested opacity is what is stored |
| Renderer.ShortcutDoesNotToggle | Engine/src/Renderer/VolumeRenderer.cpp:102-104 | with the shortcut as written, Ctrl+P leaves the window as it was |
| Renderer.ShortcutToggles | Engine/src/Renderer/VolumeRenderer.cpp:102-104 | with the corrected shortcut, Ctrl+P flips the window |

## Left out

- The getters (lines 173-183, 189-191, 201-203, 214-216, 222-224, 234-240, 246-248, 254-256, 270-280) are not separate members: they return a field, and the model's fields are public.
- `draw` (lines 101-159): the OpenGL state, the model matrix, the shader uniforms and the draw call are foreign GPU calls. Only these parts are kept: the Ctrl+P handling (`PropertiesShortcut`), the fixed render state (`VolumeRenderState`), the model matrix and the bounds uniforms (the definitions `ModelTransform`, `BoundMin` and `BoundMax`, related by `MeshSpansBounds` and `MeshMeetsBoundsExactly`) and the count of 36 indices (`DrawnIndexCount`).
- `DrawBoundingBox` (lines 409-411) draws through the line renderer, which is not part of this model. Its box is the one `BoundMin`/`BoundMax` describe.
- The ImGui widgets of the properties panel are UI calls. The checkbox, sliders and drags (lines 292-309 and 379-381) write fields through pointers with clamped ranges; the fields stay unconstrained here. The "Regenerate" button (lines 402-404) is `GenerateVolumeData`.
- The texture-size computation (lines 414-420) uses float `glm::pow` and float-to-integer truncation, so the resolution is a parameter of `GenerateVolumeData`. The unused `voxelCount` (line 414) and the log line (line 421) are left out.
- The noise generator's `Value` and the Xorshift generator are not part of this model. They are a function parameter and a sequence parameter.
- GpuResources.FillNoiseData: requires every generator output to lie in [0, 1]. That is an assumption about `Xorshift::nextFloat`, whose source is not part of this model. The conversion at line 85 drops the fraction of f*255.0. It is undefined only when the result falls outside 0..255, which happens for f <= -1/255 or f >= 256/255. The model assumes the narrower range [0, 1].
- Renderer.MeshSpansBounds: holds only at unit scale and while `volumeSize` equals the size the mesh was built from at lines 39-42. The bounds at lines 140-141 use the current `volumeSize` and ignore the scale applied at line 108. `MeshMeetsBoundsExactly` and `DoubledScaleMissesBounds` show where the two differ otherwise. Whether the shader compensates is not part of this model.
- The statics `selected_layer` and `tempLayer` (lines 317-318) are shared by every `VolumeRenderer` in the source. The model gives each renderer its own copy, so one renderer's panel moving another's selection is not captured.
- `Renderer.VolumeRenderer.Init`: the vertex buffer, vertex array, index buffer and shader objects (lines 54-61) are GPU objects and left out.
- `Renderer.VolumeRenderer.Destroy`: it releases the two textures but not the buffers and shader.
- Calling `init` twice would leak the first noise texture at line 89. The model's `noiseTex` is a value, so that leak is not visible.
- `dispose`, `update`, `regenerateVolumeTexture` and `recalculateLightData` (lines 94-99 and 193-199) have empty bodies and are not modelled.
- Cube winding and face coverage are not proved. The model proves only the counts of the index list and that every index names one of the 8 vertices, not that the twelve triangles tile the six faces with consistent orientation.
- Floating-point rounding is not modelled, since `float` is `real`. An example is the scale division at line 432.
- `Renderer.VolumeRenderer.GenerateVolumeData` requires a non-zero voxel budget, which the division at line 432 needs. Under the setter a budget is always above 8, but its initial value lives in the header, which is not part of this model.
- `Renderer.VolumeRenderer.DeleteLayer` requires the selection to be in range when the list is not empty. Erasing past the end (line 393) is undefined behaviour in the source. It becomes reachable if `setNoiseLayers` shortens the list under a stale static selection.
- `Renderer.VolumeRenderer.ChosenNoiseType`: line 341 indexes the two-entry array `noise_types` with `type / 2`. The model proves that this stays in bounds for every type the combo stores (1 and 3), and exactly for stored types -1 to 3. Layers that keep a default-constructed type (the two initial layers of lines 64-72, and every layer "Add Layer" appends) are shown with the `NoiseType` default from the header, which is not part of this model. Line 341 is in bounds for them only if that default is between -1 and 3; the model does not assume it.
- `Renderer.VolumeRenderer.SetNoiseType`, `SetBlendMode` and `EntryHighlighted` require a selected layer. The source reaches them only through combo boxes that read that layer first (lines 321, 340, 360). `Renderer.VolumeRenderer.SelectLayer` requires only that the clicked entry is in range, since its combo lists exactly one entry per layer (line 324).
- The `strcmp` on a null `current_name` (line 325) is never reached: it only runs inside the loop over the names, which is empty exactly when `current_name` is null. `layerNames.data()->c_str()` at line 320 is unused. On an empty list, `data()` can be null, so the call is undefined behaviour there. It is the first bad access of a frame after the last layer is deleted (see "## Findings"). It is not modelled beyond that state.
- Engine/src/Window/Window.cpp, Window.h, Sandbox/Sandbox.cpp and Engine/src/OpenGL/VertexBuffer.h are window, entry-point and GPU-buffer plumbing and are not modelled.

## Findings

| source | as written | input that shows it | evidently intended | confidence | as-written member | corrected member |
|---|---|---|---|---|---|---|
| Engine/src/Renderer/VolumeRenderer.cpp:251 | `this->opacity;` evaluates the field and stores nothing | `setOpacity(0.5)` while the opacity is 0.2: it stays 0.2 | `this->opacity = opacity;`, like every other setter | high, not executed | Renderer.OpacityNotStored | Renderer.OpacityStored |
| Engine/src/Renderer/VolumeRenderer.cpp:103 | `showPropertiesWindow != showPropertiesWindow;` compares and discards | Ctrl+P pressed: the window's visibility does not change | `showPropertiesWindow = !showPropertiesWindow;` | high, not executed | Renderer.ShortcutDoesNotToggle | Renderer.ShortcutToggles |
| Engine/src/Renderer/VolumeRenderer.cpp:340 | the panel calls `layerNames.data()->c_str()` (line 320) and reads `noiseLayers[selected_layer]` (line 340, also at lines 360 and 379-381) without the size check that line 321 makes | one layer, "Delete Layer" pressed: the list is empty, and the next frame first dereferences the empty name vector's data at line 320, then reads element 0 of an empty vector at line 340. The panel is drawn only if `showPropertiesWindow` starts true in the header, since Ctrl+P cannot turn it on | the per-layer controls are read only when a layer is selected | medium, not executed | Renderer.DeleteOnlyLayerEmptiesPanel | Renderer.VolumeRenderer.ChosenNoiseType |
