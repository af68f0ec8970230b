# Verified model of a Direct3D 11 renderer's scene core

This project models the scene and render-pass core of a small Direct3D 11 renderer written in C++, and proves properties of the model in Dafny. It covers:

- **Transform**: position, rotation and scale, with a dirty-flag cache of the world matrix and its inverse-transpose.
- **Camera**: keyboard and mouse movement with a pitch limit; view and projection matrices.
- **Mesh**: immutable vertex and index buffers and the indexed draw.
- **Material**: the shader pair, tint, roughness, UV scale and offset, and the named textures and samplers bound before a draw.
- **Entity and GameEntity**: the constant-buffer upload and the mesh draw.
- **ShadowManager**: the depth-only shadow pass.
- **PostProcess and PostProcessManager**: offscreen targets rendered into and resolved to the back buffer.
- **Lights.h**: the light type codes and the byte layout of the `Light` record.

## How the model is built

- **Device and context calls.** The model records every device and context call as a `Cmd` value in `Gpu.Graphics.trace`, in order.
- **Pipeline state.** `Gpu.Apply` and `Gpu.ApplyAll` give the pipeline state a trace leaves behind, tracked as `Gpu.Bound`. It holds the render target and depth target, the viewport, both shader stages, both mesh buffers and the mapped buffer.
- **Window state.** The window size, the back buffer and the main depth buffer are fields of `Graphics`. `NewId` hands out fresh handles for created objects.
- **Objects and values.** Classes the program updates in place are Dafny classes: `Transform`, `Camera`, `Mesh`, `Material`, the entities and the managers. Each has a value snapshot, such as `TransformState`, `MeshState` or `MaterialState`, and pure functions over the snapshot say what each operation does.
- **Transform operations.** `Transforms.Step` gives the effect of every transform operation. Each method of `Transforms.Transform` carries the ensures `State() == Step(old(State()), op)`.
- **Input.** `Input::KeyDown` and the mouse deltas are passed to `Camera.Update` as an `Input` value.

DirectXMath is left uninterpreted. The model uses uninterpreted functions for:

- composing scale, rotation and translation: `Compose`;
- inverse-transpose: `InverseTranspose`;
- rotation by roll-pitch-yaw: `RotateBy`;
- normalisation, look-to, perspective and orthographic projection.

It assumes only three facts about them:

- `Compose(One3, Zero3, Zero3)` is the identity;
- `InverseTranspose(Identity)` is the identity;
- `RotateBy(Zero3, v) == v`.

Vector addition and component-wise multiplication are exact.

## Model

| member | source | states |
|---|---|---|
| Transforms.InitialIsCoherent | Transform.cpp:5-13 | A new transform has identity caches, is clean, and its caches are the matrices of its vectors. |
| Transforms.SettersOverwriteOneVector | Transform.cpp:15-62 | SetPosition, SetRotation and SetScale each replace exactly one vector by the argument, leave the other two alone and mark the transform dirty. |
| Transforms.MovesAddComponentWise | Transform.cpp:64-83 | MoveAbsolute adds the offset to the position component by component. Rotate likewise adds to the rotation. Each leaves the other vectors alone and marks the transform dirty. |
| Transforms.ScaleMultipliesComponentWise | Transform.cpp:148-156 | Scale(XMFLOAT3) multiplies the scale component by component and marks dirty. |
| Transforms.GettersAndDirtiness | Transform.cpp:158-233 | The reference getters for position, rotation and scale set the dirty flag and change nothing else. GetUp, GetRight and GetForward change nothing. |
| Transforms.CleanGetIsCacheHit | Transform.cpp:235-252 | On a clean transform both matrix getters return the cached matrices and leave the state unchanged. |
| Transforms.DirtyGetRecomputes | Transform.cpp:235-271 | On a dirty transform either getter has the same effect: both caches are recomputed from the current vectors and dirty is cleared. The value returned is what a second call returns. |
| Transforms.GetIsIdempotent | Transform.cpp:235-252 | Two world-matrix gets with nothing in between return the same matrices, and the second changes nothing. |
| Transforms.CoherentGetIsCurrent | Transform.cpp:254-271 | When the cache invariant holds, the getters return Compose of the current scale, rotation and position, and its inverse-transpose. |
| Transforms.StepKeepsCoherent | Transform.cpp:15-271 | Every operation except the defective MoveRelative preserves the cache invariant: a clean transform caches the matrices of its current vectors. |
| Transforms.RunKeepsCoherent | Transform.cpp:15-271 | Any sequence of such operations preserves the cache invariant. |
| Transforms.RunKeepsPaired | Transform.cpp:254-271 | Under every operation the inverse-transpose cache stays the inverse-transpose of the world cache. |
| Transforms.WorldMatchesFinalVectors | Transform.cpp:5-271 | From a new transform, after any sequence of operations without the defective MoveRelative, GetWorldMatrix returns Compose of the final vectors. |
| Transforms.MoveRelativeAsWrittenIsStale | Transform.cpp:84-120 | MoveRelative as written moves the position by the rotated offset but leaves a clean transform clean. The next world matrix is then that of the old position. |
| Transforms.MoveRelativeAsWrittenCounterexample | Transform.cpp:103-120 | A new transform moved by (0, 0, 1) is at (0, 0, 1), while its world matrix is still that of the origin. |
| Transforms.MoveRelativeIsCurrent | Transform.cpp:103-120 | MoveRelative as intended moves by the rotated offset and keeps the cache invariant. The next world matrix reflects the new position. |
| Transforms.ScaleXYZAsWrittenCounterexample | Transform.cpp:139-147 | Scaling by (1, 1, 2) through the three-float overload as written leaves the scale at (1, 1, 1). The vector overload gives (1, 1, 2). |
| Transforms.ScaleXYZAsWrittenEffect | Transform.cpp:139-147 | As written, the three-float Scale multiplies x by x, y by y and z by y, and marks the transform dirty. |
| Transforms.Transform.constructor | Transform.cpp:5-13 | The new state is the initial one: zero position and rotation, unit scale, identity caches, clean. |
| Transforms.Transform.Copy | Transform.h:9-18 | The implicit copy: the new transform's state equals the original's. |
| Transforms.Transform.SetPosition | Transform.cpp:15-30 | The new state is the SetPosition step of the old one. |
| Transforms.Transform.SetRotation | Transform.cpp:31-46 | The new state is the SetRotation step of the old one. |
| Transforms.Transform.SetScale | Transform.cpp:47-62 | The new state is the SetScale step of the old one. |
| Transforms.Transform.MoveAbsolute | Transform.cpp:64-83 | The new state is the MoveAbsolute step of the old one. |
| Transforms.Transform.MoveRelativeAsWritten | Transform.cpp:84-120 | The new state is the as-written MoveRelative step: moved, dirty flag untouched. |
| Transforms.Transform.MoveRelative | Transform.cpp:84-120 | The new state is the intended MoveRelative step: moved and marked dirty. |
| Transforms.Transform.Rotate | Transform.cpp:121-138 | The new state is the Rotate step of the old one. The fourth component 1.0 is dropped on store. |
| Transforms.Transform.Scale | Transform.cpp:148-156 | The new state is the Scale step of the old one. |
| Transforms.Transform.ScaleXYZAsWritten | Transform.cpp:139-147 | The new state is the as-written three-float Scale step, with z multiplied by y. |
| Transforms.Transform.ScaleXYZ | Transform.cpp:139-147 | The three-float Scale as intended: the same state as Scale of the vector (x, y, z). |
| Transforms.Transform.GetPosition | Transform.cpp:158-163 | Returns the position and marks the transform dirty. |
| Transforms.Transform.GetRotation | Transform.cpp:164-169 | Returns the rotation and marks the transform dirty. |
| Transforms.Transform.GetScale | Transform.cpp:170-175 | Returns the scale and marks the transform dirty. |
| Transforms.Transform.GetUp | Transform.cpp:177-195 | Returns world up turned by the orientation and changes nothing. |
| Transforms.Transform.GetRight | Transform.cpp:196-214 | Returns world right turned by the orientation and changes nothing. |
| Transforms.Transform.GetForward | Transform.cpp:215-233 | Returns world forward turned by the orientation and changes nothing. |
| Transforms.Transform.GetWorldMatrix | Transform.cpp:235-243 | Returns the world matrix of the old state, recomputing the caches only when dirty. |
| Transforms.Transform.GetWorldInverseTransposeMatrix | Transform.cpp:244-252 | Returns the inverse-transpose of the old state, recomputing the caches only when dirty. |
| Transforms.Transform.CalculateMatrices | Transform.cpp:254-271 | Both caches are recomputed from the current vectors and dirty is cleared. |
| Cameras.PitchDelta | Camera.cpp:114-120 | The clamp-and-compare code applies the vertical turn exactly when it keeps the pitch strictly inside ±90°, and otherwise applies none. A pitch inside the limits stays inside. |
| Cameras.UpdateKeepsPitchInRange | Camera.cpp:72-127 | Update keeps the camera's pitch strictly inside ±90° and its roll at zero, for every input. |
| Cameras.MouseTurns | Camera.cpp:107-124 | With the left button down, yaw turns by 0.0025 per pixel of horizontal movement, pitch turns by the vertical delta only inside the limits, and roll never changes. With the button up, nothing turns. |
| Cameras.KeysApplyIndependently | Camera.cpp:76-105 | The displacement is the sum of each pressed key's own move. With no key pressed the position is unchanged. |
| Cameras.SingleKeyMove | Camera.cpp:76-105 | One key alone moves by its offset. W, S, A and D move along the camera's own axes; Space and X move along world up. |
| Cameras.Camera.constructor | Camera.cpp:10-18 | Stores the FOV and places a default transform at the start position. The view looks from there along world forward, and the projection is a perspective FOV projection from the FOV in radians with near plane 0.01 and far plane 900. |
| Cameras.Camera.GetTransform | Camera.cpp:30-33 | Returns a fresh copy with the camera transform's state. |
| Cameras.Camera.GetView | Camera.cpp:20-23 | Returns the stored view matrix; the constructor and UpdateView state their result through it. |
| Cameras.Camera.GetProjection | Camera.cpp:25-28 | Returns the stored projection; the constructor states its perspective projection through it. |
| Cameras.Camera.UpdateProjection | Camera.cpp:35-48 | Only the projection changes, to the perspective FOV projection for the new aspect ratio. |
| Cameras.Camera.UpdateView | Camera.cpp:50-70 | The view looks from the position along forward with up. Reading the position through the reference getter marks the transform dirty. |
| Cameras.Camera.Update | Camera.cpp:72-127 | The transform becomes the moved and turned state computed from the input and time step, and marked dirty. The view is recomputed from it, and the pitch invariant is kept. |
| Cameras.Camera.MoveByKeys | Camera.cpp:76-105 | Only the position changes, to the position after all six key checks in source order. |
| Cameras.Camera.MoveRelativeByKeys | Camera.cpp:76-95 | Only the position changes, by the W, S, A and D moves along the camera's own axes. |
| Cameras.Camera.MoveAbsoluteByKeys | Camera.cpp:97-105 | Only the position changes, by the Space and X moves along world up. |
| Cameras.Camera.Look | Camera.cpp:107-124 | Only the rotation changes, to the mouse-turned rotation. |
| Meshes.ByteWidth | Mesh.cpp:21-30 | The buffer's byte width is the element size times the count when that fits in 32 bits. It is always congruent to that product modulo 2^32. |
| Meshes.DrawBindsItsBuffers | Mesh.cpp:99-116 | Drawing leaves exactly the mesh's two buffers bound and nothing else changed. The indexed draw covers every index when the count is not negative. |
| Meshes.SelfAssignmentAsWrittenDropsBuffers | Mesh.cpp:64-77 | Self-assignment as written resets both buffers and keeps only the counts, so a mesh with buffers is changed by it. |
| Meshes.DistinctAssignmentAsWrittenCopies | Mesh.cpp:64-77 | Between two different meshes, operator= as written makes the target equal to the source. |
| Meshes.Mesh.Empty | Mesh.cpp:7 | The default mesh holds no buffers. |
| Meshes.Mesh.constructor | Mesh.cpp:9-47 | Creates an immutable vertex buffer and then an immutable index buffer, each with its byte width, as two fresh handles. It records both counts, so GetVertexCount and GetIndexCount return exactly the counts passed in, and it leaves the pipeline state unchanged. |
| Meshes.Mesh.Copy | Mesh.cpp:56-63 | The copy shares both buffers and both counts. |
| Meshes.Mesh.AssignAsWritten | Mesh.cpp:64-77 | The new state is the as-written assignment, self-assignment included. |
| Meshes.Mesh.Assign | Mesh.cpp:64-77 | The intended assignment: the target's new state is the source's old state, both buffers and both counts, including on self-assignment. |
| Meshes.Mesh.Draw | Mesh.cpp:99-116 | Issues the vertex-buffer bind, the index-buffer bind (R32_UINT) and one indexed draw of the index count. Afterwards the pipeline has the mesh's buffers bound. |
| Meshes.Mesh.GetVertexBuffer | Mesh.cpp:81-84 | Returns the vertex buffer handle, the one a copy shares. |
| Meshes.Mesh.GetIndexBuffer | Mesh.cpp:85-88 | Returns the index buffer handle, the one a copy shares. |
| Meshes.Mesh.GetIndexCount | Mesh.cpp:89-92 | Returns the recorded index count; the constructor's round trip says it is the count passed in. |
| Meshes.Mesh.GetVertexCount | Mesh.cpp:93-96 | Returns the recorded vertex count; the constructor's round trip says it is the count passed in. |
| Materials.Inserted | Material.cpp:86-94 | unordered_map::insert: the result's keys gain the name. An existing name keeps its first value, a new name gets the given one, and every other key is unchanged. |
| Materials.FirstRegistrationWins | Material.cpp:86-89 | Registering a name a second time changes nothing; the first value stays. |
| Materials.DistinctRegistrationsCommute | Material.cpp:86-94 | Registrations under different names give the same map in either order. |
| Materials.SelfAssignmentAsWrittenDropsShaders | Material.cpp:36-52 | Self-assignment as written resets both shaders, so a material with a pixel shader is changed by it. |
| Materials.AssignmentAsWrittenKeepsRoughness | Material.cpp:36-52 | Between different materials, operator= as written copies every field except roughness. A target with a different roughness does not become equal to the source. |
| Materials.TextureBindingCount | Material.cpp:98 | A binding sequence that binds every texture once issues exactly as many calls as there are textures. |
| Materials.SamplerBindingCount | Material.cpp:99 | The same for samplers. |
| Materials.ListingCount | Material.cpp:96-100 | A sequence of distinct names that lists exactly the keys of a set is as long as the set is large. |
| Materials.Material.constructor | Material.cpp:3-15 | Stores both shaders, the tint and the roughness, with no textures and no samplers. |
| Materials.Material.Copy | Material.cpp:23-34 | The copy equals the original in every field. |
| Materials.Material.AssignAsWritten | Material.cpp:36-52 | The new state is the as-written assignment: roughness is not copied, and shaders are lost on self-assignment. |
| Materials.Material.Assign | Material.cpp:36-52 | The intended assignment, matching the copy constructor: the target's new state is the source's old state, roughness included, and self-assignment keeps both shaders. |
| Materials.Material.SetScale | Material.cpp:69-72 | Only the UV scale changes, to the argument. |
| Materials.Material.SetOffset | Material.cpp:74-77 | Only the UV offset changes, to the argument. |
| Materials.Material.SetVertexShader | Material.cpp:82 | Only the vertex shader changes. |
| Materials.Material.SetPixelShader | Material.cpp:83 | Only the pixel shader changes. |
| Materials.Material.SetColor | Material.cpp:84 | Only the tint changes. |
| Materials.Material.GetVertexShader | Material.cpp:54 | Returns the vertex shader that the constructor, SetVertexShader or an assignment stored. |
| Materials.Material.GetPixelShader | Material.cpp:55 | Returns the pixel shader that the constructor, SetPixelShader or an assignment stored. |
| Materials.Material.GetColor | Material.cpp:56 | Returns the tint that the constructor or SetColor stored. |
| Materials.Material.GetRoughness | Material.cpp:57 | Returns the roughness given to the constructor; no setter changes it, and the as-written operator= leaves it alone. |
| Materials.Material.GetScale | Material.cpp:59-62 | Returns the UV scale that SetScale stored. |
| Materials.Material.GetOffset | Material.cpp:64-67 | Returns the UV offset that SetOffset stored. |
| Materials.Material.GetTextures | Material.cpp:79-80 | Returns a copy of the texture map: exactly the registered names, each with its first-registered view. |
| Materials.Material.AddTexturesSRV | Material.cpp:86-89 | Only the texture map changes, to the insert of the name. Existing names are never overwritten and never removed. |
| Materials.Material.AddSampler | Material.cpp:91-94 | Only the sampler map changes, to the insert of the name. The texture map is untouched. |
| Materials.Material.PrepMaterialForDraw | Material.cpp:96-100 | The trace grows by the texture bindings and then the sampler bindings. Each texture and each sampler is bound to the pixel shader once under its own name, as many calls as entries. The pipeline state is unchanged. An empty pixel shader with any texture or sampler entry is a null dereference before anything is issued. |
| Materials.Material.BindTextures | Material.cpp:98 | Binds every texture once, in some order, and nothing else. |
| Materials.Material.BindSamplers | Material.cpp:99 | Binds every sampler once, in some order, and nothing else. |
| Entities.UploadLeavesNothingMapped | Entity.cpp:26-41 | The map, copy and unmap sequence leaves nothing mapped and the rest of the pipeline state as it was. |
| Entities.DrawEffect | Entity.cpp:14-46 | An entity draw leaves the mesh's buffers bound, nothing mapped, and everything else as it was. |
| Entities.Entity.constructor | Entity.cpp:5-9 | Holds a fresh copy of the mesh and a default transform. |
| Entities.Entity.GetTransform | Entity.cpp:11 | Returns the entity's own transform, so changes through it move the entity. |
| Entities.Entity.GetMeshAsWritten | Entity.cpp:12 | As written, always returns an empty pointer. |
| Entities.Entity.GetMesh | Entity.cpp:12 | As intended, returns the entity's mesh. |
| Entities.Entity.Draw | Entity.cpp:14-46 | Uploads white, the world matrix and the camera's view and projection, then draws the mesh. The world matrix is that of the old transform state, and the transform takes a GetWorldMatrix step. |
| Entities.GameEntity.constructor | GameEntity.cpp:5-9 | Holds a fresh copy of the mesh and a default transform. |
| Entities.GameEntity.GetTransform | GameEntity.cpp:11 | Returns the entity's own transform. |
| Entities.GameEntity.GetMeshAsWritten | GameEntity.cpp:12 | As written, always returns an empty pointer. |
| Entities.GameEntity.GetMesh | GameEntity.cpp:12 | As intended, returns the entity's mesh. |
| Entities.GameEntity.Draw | GameEntity.cpp:14-44 | Uploads white and the world matrix, with zero view and projection from the zero-initialised record, then draws the mesh. |
| Shadows.PassesAreInert | ShadowManager.cpp:109-118 | The per-entity commands never rebind targets, viewport or shaders, and set no matrix but "world". The light's view and projection therefore stay as set once before the loop. |
| Shadows.OneMeshDrawPerEntity | ShadowManager.cpp:109-118 | The entity loop issues exactly one indexed draw per entity. |
| Shadows.SetupEffect | ShadowManager.cpp:87-107 | The setup leaves the shadow map as the only target, with no render target, no pixel shader, the 1024×1024 viewport and the shadow vertex shader. |
| Shadows.RestoreEffect | ShadowManager.cpp:120-127 | The restoration sets the window-sized viewport and the back buffer with the main depth buffer. |
| Shadows.ShadowPassRestores | ShadowManager.cpp:85-128 | Whatever was bound before and however many entities are drawn, the pass ends with the window's viewport and targets, the shadow vertex shader and no pixel shader. |
| Shadows.ShadowPassState | ShadowManager.cpp:85-128 | The same for a trace extended part by part by the pass. |
| Shadows.PassesAreEach | ShadowManager.cpp:110-118 | The passes are the entities' own, one each, in order. |
| Shadows.CrashLeavesShadowState | ShadowManager.cpp:85-117 | After the as-written draw fails at the first entity, the shadow map is still bound, with no render target, no pixel shader and the shadow viewport. |
| Shadows.ShadowManager.constructor | ShadowManager.cpp:9-83 | Creates the 1024×1024 R32_TYPELESS depth and shader-resource texture, then its D32_FLOAT depth view and R32_FLOAT shader view. It fixes the light view (from 20 units behind along the normalised direction, world up) and the 15×15 orthographic projection with near 1 and far 100. |
| Shadows.ShadowManager.GetShadowSRV | ShadowManager.cpp:130 | Returns the R32_FLOAT shader-resource view that the constructor created over the shadow map. The field is constant, so every call returns that view. |
| Shadows.ShadowManager.DrawSetup | ShadowManager.cpp:87-107 | Issues the setup commands: clear, targets, pixel shader off, viewport, vertex shader and both light matrices. |
| Shadows.ShadowManager.DrawTargets | ShadowManager.cpp:87-102 | Clears the shadow map to depth 1, binds it without a render target, turns the pixel shader off and sets the shadow viewport. |
| Shadows.ShadowManager.DrawShader | ShadowManager.cpp:104-107 | Sets the shadow vertex shader and uploads the light's view and projection. |
| Shadows.ShadowManager.Draw | ShadowManager.cpp:85-128 | As intended, the trace grows by the setup, each entity's world upload and mesh draw in order, and the restoration. The world matrix is read from a copy of each entity's transform, so the entities are not changed. The pipeline ends in the restored state. |
| Shadows.ShadowManager.DrawRestore | ShadowManager.cpp:120-127 | Issues the window viewport and back-buffer bind. |
| Shadows.ShadowManager.DrawEntities | ShadowManager.cpp:109-118 | Issues every entity's pass in order. |
| Shadows.ShadowManager.DrawOne | ShadowManager.cpp:112-117 | Issues the world matrix upload, CopyAllBufferData and the mesh's draw for one entity. |
| Shadows.ShadowManager.DrawAsWritten | ShadowManager.cpp:85-128 | As written, it fails exactly when there is at least one entity. It then stops after the setup and the first entity's world upload. With no entities it completes the pass. |
| PostProcessing.PreRenderEffect | PostProcess.cpp:61-68 | PreRender leaves the effect's target and the main depth buffer bound and nothing else changed. |
| PostProcessing.PostRenderEffect | PostProcess.cpp:70-84 | PostRender leaves the back buffer bound without depth, the given vertex shader and the effect's pixel shader set, and nothing else changed. |
| PostProcessing.PostRenderDrawsOnce | PostProcess.cpp:70-84 | One PostRender issues exactly one non-indexed draw. |
| PostProcessing.PostProcess.constructor | PostProcess.cpp:5-44 | Keeps the pixel shader and creates a window-sized R8G8B8A8_UNORM texture bindable as render target and shader resource. It then creates a render-target view with that format and a default shader-resource view, all as fresh handles. |
| PostProcessing.PostProcess.GetRTV | PostProcess.cpp:46-49 | Returns the render-target view that the constructor created over the effect's texture, on every call. |
| PostProcessing.PostProcess.GetSRV | PostProcess.cpp:51-54 | Returns the shader-resource view that the constructor created over the same texture, on every call. |
| PostProcessing.PostProcess.GetPixelShader | PostProcess.cpp:56-59 | Returns the pixel shader given to the constructor, which PostRender activates and OnResize passes on. |
| PostProcessing.PostProcess.PreRender | PostProcess.cpp:61-68 | Clears the effect's target to the background colour, then binds it with the main depth buffer. |
| PostProcessing.PostProcess.PostRender | PostProcess.cpp:70-84 | Binds the back buffer without depth and sets both shaders. It binds the effect's pixels as "Pixels" and the sampler as "ClampSampler", then draws 3 vertices. |
| PostProcessing.PostProcess.Delete | PostProcess.h:16-18 | Deleting an effect releases its shader-resource view and then its render-target view, the reverse of their declaration order. |
| PostProcessing.PreRendersBindLast | PostProcessManager.cpp:40-46 | With no effects, PreRender issues nothing and changes nothing. Otherwise it leaves the last effect's target and the main depth buffer bound, and nothing else changed. |
| PostProcessing.PostRendersEndOnBackBuffer | PostProcessManager.cpp:48-54 | With no effects, PostRender changes nothing. Otherwise it ends with the back buffer bound without depth, the manager's vertex shader and the last effect's pixel shader. |
| PostProcessing.OneDrawPerEffect | PostProcessManager.cpp:48-54 | PostRender draws exactly once per effect. |
| PostProcessing.CreationsAndReleases | PostProcessManager.cpp:56-77 | Rebuilding the effects issues only creations, and deleting them only releases. |
| PostProcessing.ReplacementsBeforeReleases | PostProcessManager.cpp:56-77 | In OnResize's commands no release precedes a creation: every replacement exists before any old effect is deleted. |
| PostProcessing.PostProcessManager.constructor | PostProcessManager.cpp:6-20 | Creates the sampler with clamp addressing and trilinear filtering, and has a fresh vertex shader and an empty list. |
| PostProcessing.PostProcessManager.Destroy | PostProcessManager.cpp:22-28 | The destructor deletes every effect in list order. |
| PostProcessing.PostProcessManager.AddPostProcess | PostProcessManager.cpp:30-33 | Appends the effect to the end of the list. |
| PostProcessing.PostProcessManager.ClearPostProcesses | PostProcessManager.cpp:35-38 | Empties the list without deleting its effects. |
| PostProcessing.PostProcessManager.PreRender | PostProcessManager.cpp:40-46 | Issues every effect's PreRender in list order. |
| PostProcessing.PostProcessManager.PostRender | PostProcessManager.cpp:48-54 | Issues every effect's PostRender in list order, with the manager's vertex shader and sampler. |
| PostProcessing.PostProcessManager.OnResize | PostProcessManager.cpp:56-77 | Replaces the list with as many fresh effects, with the same pixel shaders in the same order, at the current window size. All creations are issued first, then each old effect is deleted in order. |
| Lights.Code | Lights.h:6-8 | Each light kind's code is 0, 1 or 2, each naming exactly one kind. |
| Lights.KindOf | Lights.h:6-8 | A code names a kind exactly when it is 0, 1 or 2, and reads back as that kind's code. |
| Lights.CodesRoundTrip | Lights.h:6-8 | Every kind's code reads back as that kind, so the three codes are pairwise distinct. |
| Lights.SizeOf | Lights.h:15-23 | Every field type is a whole number of 4-byte components, 4 to 12 bytes. |
| Lights.PackedStart | Lights.h:23 | HLSL packing puts a field no earlier than requested, never across a 16-byte register. It moves the field only when it would straddle one. |
| Lights.PackingAgreesWhenNothingStraddles | Lights.h:13-24 | When no field of the consecutive C++ layout straddles a register, HLSL packs every field at the same offset. |
| Lights.LightOffsets | Lights.h:13-24 | Light's fields sit at offsets 0, 4, 16, 20, 32, 36, 48, 52 and 56, and the record is 64 bytes, four whole registers. |
| Lights.LightMatchesHlsl | Lights.h:15-22 | No field straddles a register (Direction 4–15, Position 20–31, Color 36–47), so the shader sees every field where C++ put it. |
| Lights.PaddingFillsLastRegister | Lights.h:21-23 | Padding starts where the two spot angles end and ends exactly at the end of their register. |

## Left out

- DirectXMath is uninterpreted: matrix products, quaternion rotation, inversion, normalisation, look-to and projections. Only the three identity facts listed above are assumed. As a result, no lemma states, for example, that the view matrix is orthonormal.
- Floating-point rounding is not modelled; `float` is `real`. Vector addition and multiplication are exact.
- HRESULT results of device calls are not modelled; every call succeeds. The device and context are the `Graphics` object, and their internal state beyond the bound pipeline state is not modelled.
- `Vertex` and its size: Vertex.h is not part of this model, so `sizeof(Vertex)` is an arbitrary positive 32-bit size. The initial data pointers given to CreateBuffer are passed through unread.
- `SimpleVertexShader` and `SimplePixelShader` (loading compiled shader files, constant-buffer layout) are not part of this model. A loaded shader is a fresh handle. SetMatrix4x4, CopyAllBufferData, SetShaderResourceView and SetSamplerState are recorded in the trace but change no modelled pipeline state.
- COM and `shared_ptr` reference counting, `Reset()` and the Mesh and Material destructors are not modelled. Deleting a PostProcess is modelled by the release of its two views. ClearPostProcesses therefore shows no releases for its dropped effects, which leak.
- PostProcessManager::OnResize: setting the old entries to `nullptr` before the list is replaced is not modelled, because the list is replaced right after.
- Uninitialised fields are left unconstrained: Mesh() counts, Material's UV scale and offset, and a Camera before its constructor runs.
- The order of unordered_map iteration is unspecified. PrepMaterialForDraw therefore binds in some order chosen inside the model, and its contract states the set of bindings, not their order.
- The PostProcessManager header's map of effects keyed by an enum and SetActiveProcess have no definition in PostProcessManager.cpp. The model follows the .cpp list. The headers of Transform and others declare fewer overloads than the .cpp files define; the model follows the .cpp files.
- Transforms.Transform.GetPosition, GetRotation and GetScale return a value, not the `XMFLOAT3&` of Transform.cpp:158-175. A write through the reference is modelled as the getter followed by the matching setter. A caller that keeps the reference, calls GetWorldMatrix and only then writes through it leaves the cache stale, like the as-written MoveRelative; that sequence is not representable here, so StepKeepsCoherent and WorldMatchesFinalVectors hold only for the modelled operations.
- Camera.Update uses the intended MoveRelative. Its resulting state is the same with the as-written one, because UpdateView reads the position through the reference getter, which marks the transform dirty.
- Window resizing itself (`Graphics.SetWindowSize`) and the game loop that calls these classes are outside the core.
- Shadows.ShadowManager.constructor: the light view and projection are stated through the uninterpreted LookTo and Orthographic functions, so "the matrices are correct" is not proved beyond their arguments.

## Findings

| source | as written | input that shows it | evidently intended | confidence | as-written member | corrected member |
|---|---|---|---|---|---|---|
| Transform.cpp:84-120 | MoveRelative changes the position but never sets the dirty flag | a new (clean) transform moved by (0, 0, 1): position (0, 0, 1), GetWorldMatrix still the matrix of the origin | mark dirty like every other mutator | high (not executed) | Transforms.MoveRelativeAsWrittenCounterexample | Transforms.MoveRelativeIsCurrent |
| Transform.cpp:143 | the three-float Scale multiplies z by `a_fY` | Scale(1, 1, 2) on a new transform leaves the scale at (1, 1, 1) | multiply z by `a_fZ` | high (not executed) | Transforms.ScaleXYZAsWrittenCounterexample | Transforms.Transform.ScaleXYZ |
| Entity.cpp:12 | GetMesh returns an empty `shared_ptr`, which ShadowManager::Draw dereferences at ShadowManager.cpp:117 | ShadowManager::Draw with one entity | return the entity's mesh | high (not executed) | Shadows.ShadowManager.DrawAsWritten | Shadows.ShadowManager.Draw |
| Mesh.cpp:64-77 | operator= resets both buffers before reading them from the source, with no self-assignment check | `m = m` for a mesh with buffers: both buffers become empty | guard against self-assignment | medium (not executed) | Meshes.SelfAssignmentAsWrittenDropsBuffers | Meshes.Mesh.Assign |
| Material.cpp:36-52 | operator= resets both shaders before reading them from the source, with no self-assignment check | `m = m` for a material with a pixel shader: both shaders become empty | guard against self-assignment | medium (not executed) | Materials.SelfAssignmentAsWrittenDropsShaders | Materials.Material.Assign |
| Material.cpp:36-52 | operator= copies every field except roughness | assigning a material of roughness 0.9 to one of roughness 0.5 leaves 0.5 | copy roughness as the copy constructor does (Material.cpp:31) | medium (not executed) | Materials.AssignmentAsWrittenKeepsRoughness | Materials.Material.Assign |
