# OpenGL-Samples core, modelled in Dafny

This project models the shared engine code of the OpenGL-Samples repository
and a handful of samples built on it:

- mesh upload and round-robin uniform buffers (`common/Common.cpp`),
- the skybox renderer (`common/Skybox.cpp`),
- the frame counter (`common/FPSCounter.h`),
- the post-processing chain: the effect base class, the manager, the colour
  space converter, blur and bloom (`common/PostProcessing/`),
- the view-frustum classifier (`common/Util/Frustum.cpp`),
- the model importer, the import helper that packs meshes into shared
  buffers and loads textures, and the scene that culls, sorts, uploads and
  draws nodes (`common/Importer/`),
- the samples FrustumCulling, MarchingCube, MipMapVisual, VectorField and the
  MineCraft chunk identifier.

OpenGL calls do not run here. A draw, a dispatch, a binding or a state
change becomes a value in a returned trace. Mapped buffer memory is an
`array<bv8>` (or an array of records) that `memcpy` overwrites. Foreign code
(Assimp, the geometry generators, the plane tests, noise, image decoding)
enters as function parameters, so every statement holds for any behaviour of
that code. Floats are `real`.

Modules follow the source files: `Common`, `Skybox`, `FPSCounter`,
`PostProcessing`, `PostProcessingManager`, `ColorSpaceConverter`, `Blur`,
`Bloom`, `Frustum`, `ModelImporter`, `ImportHelper`, `ImportTextures`,
`Scene`, `CullingFrustum`, `MarchingCube`, `MipMapVisual`, `VectorField` and
`ChunkID`. `GLTypes`, `Memory` and `SeqUtil` hold shared types, the `memcpy`
specification and sequence helpers. Classes whose fields the source updates
in place (`Skybox`, `FPSCounter`, `PostProcessing`, `PostProcessingManager`,
`ColorSpaceConverter`, `BlurPostProcessing`, `Scene`, `FrustumCulling`,
`MarchingCube`, `VectorFieldSample`) are Dafny classes. Their methods state
the new state in terms of specification functions, and lemmas prove what
the source promises about those functions.

## Model

| member | source | states |
|---|---|---|
| Common.LoadGeometry | common/Common.cpp:49-52 | the descriptor takes the new buffer names, offsets 0 and the generated geometry's index and vertex counts; primitive type and bound are kept |
| Common.ReloadForgetsPrevious | common/Common.cpp:49-52 | uploading a second geometry into a descriptor leaves nothing of the first upload |
| Common.LoadPlan | common/Common.cpp:10-53 | loadPlan's descriptor counts are those of the generated plane for the given scale and segments |
| Common.LoadSphere | common/Common.cpp:55-97 | loadSphere's descriptor counts are those of the generated sphere for the given radius, slices and segments |
| Common.LoadCube | common/Common.cpp:99-142 | loadCube's descriptor counts are those of the generated cube for the given scale and segmentX |
| Common.CubeIgnoresSegmentY | common/Common.cpp:99-142 | loadCube gives the same descriptor for every segmentY |
| Common.SlotStartFormula | common/Common.cpp:314-316 | slot i of the round-robin window starts at offset + i * alignSize |
| Common.SlotsOrdered | common/Common.cpp:314-316 | for i < j, slot i ends at or before slot j starts, so slots do not overlap |
| Common.Fill | common/Common.cpp:314-316 | filling the window keeps the buffer's length |
| Common.FillSlots | common/Common.cpp:314-316 | after the fill, every slot i < robin holds exactly the data block |
| Common.FillOutside | common/Common.cpp:311-316 | a byte in no slot's copy keeps its value, whether it is alignment padding between slots or lies outside the window |
| Common.FillOutsideWindow | common/Common.cpp:311-316 | bytes outside the mapped window [offset, offset + alignSize * robin) keep their value |
| Common.RefreshWholeRoundRobinBuffer | common/Common.cpp:304-318 | the loop of memcpy calls leaves the mapped memory equal to Fill of its old contents |
| Skybox.WrittenSlotIsNotBound | common/Skybox.cpp:59-67 | the uniform slot written in a frame is never the slot bound for drawing in that frame |
| Skybox.WrittenSlotIsBoundNext | common/Skybox.cpp:59-113 | the slot written in frame f is the one bound in frame f + 1 |
| Skybox.WrittenSlotFits | common/Skybox.cpp:59-67 | the slot written next lies inside the three-slot buffer |
| Skybox.SetupState | common/Skybox.cpp:76-80 | the setup commands leave culling and blending off, depth test on and depth function LEQUAL, whatever the state before |
| Skybox.ReenableIfSaved | common/Skybox.cpp:98-108 | a capability is re-enabled exactly when it was on before the frame |
| Skybox.RestoreAfterSetup | common/Skybox.cpp:70-110 | setup followed by restore gives back the saved state, except that the depth test is left on |
| Skybox.FrameRestoresState | common/Skybox.cpp:57-110 | the frame's command list draws the cube once under the skybox state and ends in the saved state with the depth test on |
| Skybox.Skybox.Init | common/Skybox.cpp:24-42 | the uniform block size is aligned up to the device minimum; the buffer holds three slots; the cube is loaded with scale 1 and one segment; frame index 0, enabled |
| Skybox.Skybox.Render | common/Skybox.cpp:48-114 | disabled: nothing changes and nothing is issued; enabled: the block is copied into the next slot, the frame commands bind the current slot, and the frame index advances modulo 3 |
| Skybox.Skybox.RestoreState | common/Skybox.cpp:98-110 | the restore commands are exactly Restore of the saved state: one enable per saved flag that was on, then the saved depth function |
| FPSCounter.AfterIncrement | common/FPSCounter.h:21-31 | incrementFPS counts the frame and resamples the average and the time stamp exactly when the count is a multiple of the sample size |
| FPSCounter.AfterUpdate | common/FPSCounter.h:33-37 | update counts the frame and leaves the average and the time stamp alone |
| FPSCounter.AfterInternalUpdate | common/FPSCounter.h:42-52 | internal_update resamples on a multiple of the sample size and changes nothing otherwise |
| FPSCounter.IncrementsCount | common/FPSCounter.h:30 | n calls of incrementFPS add n to the frame count |
| FPSCounter.QuietCalls | common/FPSCounter.h:23-30 | calls that start between sample points leave the average and the time stamp as they were |
| FPSCounter.SamplingPeriod | common/FPSCounter.h:23 | after k more frames a sample is due iff k is a multiple of the sample size |
| FPSCounter.InternalUpdateResamples | common/FPSCounter.h:42-52 | internal_update does not count frames, so once a sample is due every later call resamples |
| FPSCounter.FPSCounter.constructor | common/FPSCounter.h:11-17 | sample size and resolution as given, the average zero and the count zero |
| FPSCounter.FPSCounter.IncrementFPS | common/FPSCounter.h:21-31 | the counter's new state is AfterIncrement of the old one |
| FPSCounter.FPSCounter.Update | common/FPSCounter.h:33-37 | the counter's new state is AfterUpdate of the old one |
| FPSCounter.FPSCounter.GetFPS | common/FPSCounter.h:39 | returns the stored average |
| FPSCounter.FPSCounter.InternalUpdate | common/FPSCounter.h:42-52 | the counter's new state is AfterInternalUpdate of the old one |
| PostProcessing.PostProcessing.constructor | common/PostProcessing/PostProcessing.h:59 | a new effect has intensity 1 and requires no buffers |
| PostProcessing.PostProcessing.GetIntensity | common/PostProcessing/PostProcessing.cpp:25 | returns the stored intensity |
| PostProcessing.PostProcessing.SetIntensity | common/PostProcessing/PostProcessing.cpp:26 | the intensity read back afterwards is the one set |
| PostProcessing.PostProcessing.AddRequireBuffer | common/PostProcessing/PostProcessing.cpp:28-30 | the buffer is appended to the required list and the earlier entries are kept |
| PostProcessing.PostProcessing.RemoveRequireBuffer | common/PostProcessing/PostProcessing.cpp:31 | the required list is unchanged |
| PostProcessing.PostProcessing.Draw | common/PostProcessing/PostProcessing.cpp:7-23 | each render target texture is bound to the unit it names, in order, and the polygon mode is fill |
| PostProcessingManager.EnabledIndicesMembers | common/PostProcessing/PostProcessingManager.cpp:29-39 | effect i is rendered iff it exists, its flag is set and its intensity is positive |
| PostProcessingManager.EnabledIndicesIncreasing | common/PostProcessing/PostProcessingManager.cpp:29-39 | rendered effects are valid indices, in increasing order, each once |
| PostProcessingManager.NewEffectNotRendered | common/PostProcessing/PostProcessingManager.cpp:6-16 | adding an effect does not change which effects render |
| PostProcessingManager.PostProcessingManager.Intensities | common/PostProcessing/PostProcessingManager.cpp:14-16 | one entry per effect, each that effect's intensity |
| PostProcessingManager.PostProcessingManager.constructor | common/PostProcessing/PostProcessingManager.h:26 | a new manager holds no effects |
| PostProcessingManager.PostProcessingManager.AddPostProcessing | common/PostProcessing/PostProcessingManager.cpp:6-9 | the effect is appended with its flag off, so it is not enabled |
| PostProcessingManager.PostProcessingManager.GetNrPostProcessing | common/PostProcessing/PostProcessingManager.cpp:11 | the number of effects |
| PostProcessingManager.PostProcessingManager.GetPostProcessing | common/PostProcessing/PostProcessingManager.cpp:12 | the effect at the index |
| PostProcessingManager.PostProcessingManager.IsEnabled | common/PostProcessing/PostProcessingManager.cpp:14-16 | enabled iff the flag is set and the intensity is positive |
| PostProcessingManager.PostProcessingManager.EnablePostProcessing | common/PostProcessing/PostProcessingManager.cpp:18-20 | only the flag at the index changes, to the given value |
| PostProcessingManager.PostProcessingManager.Render | common/PostProcessing/PostProcessingManager.cpp:22-40 | the effects rendered are exactly EnabledIndices of the flags and intensities |
| ColorSpaceConverter.WorkGroups | common/PostProcessing/ColorSpaceConverter.cpp:133-137 | the group counts are the least that cover the image with the colour space's local sizes |
| ColorSpaceConverter.PassOf | common/PostProcessing/ColorSpaceConverter.cpp:154-156 | a pass binds the texture to image unit 1 and dispatches iff both group counts are positive |
| ColorSpaceConverter.ConvertPasses | common/PostProcessing/ColorSpaceConverter.cpp:119-237 | no passes iff no gamma pass is due; a tone-mapping space runs its program once, then gamma; SRGB runs gamma only |
| ColorSpaceConverter.PassesBindTexture | common/PostProcessing/ColorSpaceConverter.cpp:119-237 | every pass binds the converted texture to image unit 1 |
| ColorSpaceConverter.DefaultConvertsNothing | common/PostProcessing/ColorSpaceConverter.cpp:125-127 | Raw and RawLinear, the default, convert nothing |
| ColorSpaceConverter.EmptyTextureNoDispatch | common/PostProcessing/ColorSpaceConverter.cpp:154-156 | a 0 x 0 texture is never dispatched over |
| ColorSpaceConverter.ColorSpaceConverter.constructor | common/PostProcessing/ColorSpaceConverter.h:39 | a new converter's colour space is Raw |
| ColorSpaceConverter.ColorSpaceConverter.GetColorSpace | common/PostProcessing/ColorSpaceConverter.cpp:240 | returns the stored colour space |
| ColorSpaceConverter.ColorSpaceConverter.SetColorSpace | common/PostProcessing/ColorSpaceConverter.cpp:239 | the colour space read back afterwards is the one set |
| ColorSpaceConverter.ColorSpaceConverter.Convert | common/PostProcessing/ColorSpaceConverter.cpp:119-237 | the passes issued are ConvertPasses for the stored colour space |
| Blur.Selection | common/PostProcessing/BlurPostProcessing.cpp:97-117 | a blur program and an image binding of the write texture are chosen iff the blur type is not MaxBlur |
| Blur.RepeatContents | common/PostProcessing/BlurPostProcessing.cpp:123-126 | n iterations issue n identical dispatches |
| Blur.DispatchCount | common/PostProcessing/BlurPostProcessing.cpp:119-127 | for a non-empty image, one dispatch per iteration (none for a non-positive count); none for an empty image; each dispatch covers the image |
| Blur.SwapFirstTwo | common/PostProcessing/BlurPostProcessing.cpp:131 | the first two attachments trade places and the rest stay |
| Blur.PingPongTwice | common/PostProcessing/BlurPostProcessing.cpp:131 | two renders leave the attachments as they were |
| Blur.BlurPostProcessing.constructor | common/PostProcessing/BlurPostProcessing.cpp:13-17 | requires the colour and intermediate attachments; Gaussian blur, one iteration |
| Blur.BlurPostProcessing.Render | common/PostProcessing/BlurPostProcessing.cpp:84-134 | program, binding and dispatches as Selection and IterationDispatches say, then the first two attachments are swapped |
| Blur.BlurPostProcessing.Draw | common/PostProcessing/BlurPostProcessing.cpp:77-82 | binds the render targets, then renders into the intermediate texture |
| Bloom.Pass | common/PostProcessing/BloomPostProcessing.cpp:144-153 | a pass dispatches and swaps the ping-pong pair exactly when both group counts are at least 2 |
| Bloom.DownKeepsColor | common/PostProcessing/BloomPostProcessing.cpp:133-154 | downsampling never writes the colour texture; after two or more passes the pair holds the two intermediates |
| Bloom.UpKeepsIntermediates | common/PostProcessing/BloomPostProcessing.cpp:162-179 | upsampling from the intermediates never writes the colour texture and keeps the pair on the intermediates |
| Bloom.ColorNeverWritten | common/PostProcessing/BloomPostProcessing.cpp:106-211 | with two or more passes the colour texture is never a target and the overlay reads an intermediate |
| Bloom.SinglePassWritesColor | common/PostProcessing/BloomPostProcessing.cpp:114-177 | with one pass over an image of at least 4 groups each way, the upsample pass writes the colour texture |
| Bloom.DownDispatchGroups | common/PostProcessing/BloomPostProcessing.cpp:141-142 | downsample pass i dispatches base / 2^(i+1) groups each way |
| Bloom.UpDispatchGroups | common/PostProcessing/BloomPostProcessing.cpp:164-167 | upsample passes dispatch the groups of the matching level |
| Bloom.DownsampleLoop | common/PostProcessing/BloomPostProcessing.cpp:133-154 | the loop's pair and dispatches equal Down for all passes |
| Bloom.UpsampleLoop | common/PostProcessing/BloomPostProcessing.cpp:162-179 | the loop's pair and dispatches equal Up for all passes |
| Bloom.Render | common/PostProcessing/BloomPostProcessing.cpp:106-211 | the frame is Frame of the textures and the group counts covering the image |
| Frustum.PlaneLoop | common/Util/Frustum.cpp:28-37 | In iff no plane rejects the shape, Out iff one does |
| Frustum.CheckPoint | common/Util/Frustum.cpp:28-37 | a point is In iff no plane rejects it, Out otherwise |
| Frustum.IntersectionAabbMinMax | common/Util/Frustum.cpp:39-51 | a box is In iff no plane rejects it, Out otherwise |
| Frustum.IntersectionAabb | common/Util/Frustum.cpp:53-55 | same classification as the min/max form; never Intersect |
| Frustum.IntersectionSphere | common/Util/Frustum.cpp:67-74 | a sphere is In iff no plane rejects it, Out otherwise |
| Frustum.IntersectionSphereAt | common/Util/Frustum.cpp:63-65 | same classification as for the sphere built from position and radius; never Intersect |
| Frustum.IntersectionObb | common/Util/Frustum.cpp:57-61 | always Out |
| Frustum.IntersectPlane | common/Util/Frustum.cpp:76 | always In |
| Frustum.IntersectionFrustum | common/Util/Frustum.cpp:78 | always In |
| ChunkID.Equals | Samples/MineCraft/ChunkID.h:18 | true iff the coordinates agree |
| ChunkID.NotEquals | Samples/MineCraft/ChunkID.h:27 | the negation of Equals |
| ChunkID.EqualIdsEqualHash | Samples/MineCraft/ChunkID.h:18-25 | equal ids hash equally |
| ChunkID.HashSeparatesZ | Samples/MineCraft/ChunkID.h:22-23 | ids that differ only in Z hash differently |
| ChunkID.MixSeparates | Samples/MineCraft/ChunkID.h:22-23 | one mixing step with 32-bit wrap-around is injective in the mixed value |
| ChunkID.HashCollides | Samples/MineCraft/ChunkID.h:19-25 | (0, 1, 397) and (0, 0, 0) are different ids with hash 0 |
| ChunkID.ShiftRight4 | Samples/MineCraft/ChunkID.h:29 | the arithmetic shift by 4 is the floor of v / 16 |
| ChunkID.FromWorldPos | Samples/MineCraft/ChunkID.h:29 | each chunk coordinate is the 16-block cell holding the world coordinate |
| ChunkID.ShiftIsFloorDivision | Samples/MineCraft/ChunkID.h:29 | any q with 16q <= v < 16q + 16 is the shift's result |
| ChunkID.SameBlockSameChunk | Samples/MineCraft/ChunkID.h:29 | every position inside a chunk's 16-cube maps to that chunk |
| ChunkID.NegativePositionsRoundDown | Samples/MineCraft/ChunkID.h:29 | negative positions round toward minus infinity: (-1, -16, -17) is chunk (-1, -1, -2) |
| CullingFrustum.NodeQueue.constructor | Samples/FrustumCulling/CullingFrustum.cpp:326 | the queue holds the given nodes |
| CullingFrustum.NodeQueue.Empty | Samples/FrustumCulling/CullingFrustum.cpp:35 | true iff the queue holds nothing |
| CullingFrustum.NodeQueue.Front | Samples/FrustumCulling/CullingFrustum.cpp:36 | the first node |
| CullingFrustum.NodeQueue.Push | Samples/FrustumCulling/CullingFrustum.cpp:455 | appends at the back |
| CullingFrustum.NodeQueue.Pop | Samples/FrustumCulling/CullingFrustum.cpp:37 | removes the front |
| CullingFrustum.NodeQueue.Assign | Samples/FrustumCulling/CullingFrustum.cpp:326 | the queue becomes a copy of the other queue's contents |
| CullingFrustum.RenderQueue | Samples/FrustumCulling/CullingFrustum.cpp:34-39 | the queue's nodes are drawn front to back through the scene's renderNode, the counter advances by their number and the queue ends empty |
| CullingFrustum.CullingOffKeepsCopies | Samples/FrustumCulling/CullingFrustum.cpp:434-478 | with culling off every node is queued once per geometry |
| CullingFrustum.CullQueueMembers | Samples/FrustumCulling/CullingFrustum.cpp:436-478 | a node is queued iff some geometry of it passes the visibility test |
| CullingFrustum.TestNode | Samples/FrustumCulling/CullingFrustum.cpp:449-476 | the node is pushed iff it is Visible under the settings |
| CullingFrustum.CullNode | Samples/FrustumCulling/CullingFrustum.cpp:440-477 | both queues grow by the node's copies for their own frustum |
| CullingFrustum.Cull | Samples/FrustumCulling/CullingFrustum.cpp:434-478 | the main and observer queues are CullQueue of all nodes for the main and observer frustums |
| CullingFrustum.InstanceBatch | Samples/FrustumCulling/CullingFrustum.cpp:266 | the most matrices, at most the cap, that fit in the uniform block limit |
| CullingFrustum.SlotBlock | Samples/FrustumCulling/CullingFrustum.cpp:320-323 | both cameras' blocks of a slot fit in the buffer |
| CullingFrustum.SlotsApart | Samples/FrustumCulling/CullingFrustum.cpp:420-424 | a later slot starts after the whole of an earlier slot |
| CullingFrustum.CameraSlots | Samples/FrustumCulling/CullingFrustum.cpp:420-428 | the blocks written in a frame lie inside the buffer, do not overlap the blocks bound in that frame, and are the blocks bound in the next frame |
| CullingFrustum.BoundMatricesCount | Samples/FrustumCulling/CullingFrustum.cpp:497-521 | one bounding matrix per queued geometry |
| CullingFrustum.BatchesCount | Samples/FrustumCulling/CullingFrustum.cpp:555-568 | the batches' instance counts add up to the number of matrices |
| CullingFrustum.BatchesLength | Samples/FrustumCulling/CullingFrustum.cpp:555-568 | the number of batches is the ceiling of matrices over batch size |
| CullingFrustum.BatchesShape | Samples/FrustumCulling/CullingFrustum.cpp:555-568 | batch j is issued at x = j * batch size, draws at most a batch (the last one the remainder, never past the matrices) and binds the same range as every other batch |
| CullingFrustum.BatchLoop | Samples/FrustumCulling/CullingFrustum.cpp:555-568 | the loop issues exactly Batches |
| CullingFrustum.RenderBoundingBox | Samples/FrustumCulling/CullingFrustum.cpp:492-572 | the queue is drained into bounding matrices; their bytes are copied into the frame's instance slot as far as it reaches, overrun iff they do not fit; the batches all bind that slot |
| CullingFrustum.MatrixData | Samples/FrustumCulling/CullingFrustum.cpp:531-532 | memcpy reads 64 bytes per matrix |
| CullingFrustum.MatrixDataAt | Samples/FrustumCulling/CullingFrustum.cpp:531-532 | matrix k's bytes lie k matrices into the vector's data |
| CullingFrustum.InstanceSlot | Samples/FrustumCulling/CullingFrustum.cpp:526-528 | the frame's slot (frame % 3) lies inside the three-slot instance buffer |
| CullingFrustum.UploadInstances | Samples/FrustumCulling/CullingFrustum.cpp:524-535 | the buffer afterwards is the old buffer with the matrix bytes at the slot's start, cut at the slot's end; overrun iff the bytes exceed the slot |
| CullingFrustum.UploadedMatrix | Samples/FrustumCulling/CullingFrustum.cpp:524-535 | after the copy, a matrix that fits in the slot sits m matrices into it, where instance m of a draw bound to the slot reads it; bytes outside the slot keep their value |
| CullingFrustum.UploadTwice | Samples/FrustumCulling/CullingFrustum.cpp:524-535 | copying the same matrices into the same slot again changes nothing |
| CullingFrustum.BatchesDrawOnlyFirst | Samples/FrustumCulling/CullingFrustum.cpp:555-567 | as written, a matrix is drawn iff its index is below both the matrix count and the batch size |
| CullingFrustum.ThirdMatrixNeverDrawn | Samples/FrustumCulling/CullingFrustum.cpp:555-567 | three matrices in batches of two: the second batch reads matrix 0 and matrix 2 is never drawn |
| CullingFrustum.SlicedBatchesDrawAll | Samples/FrustumCulling/CullingFrustum.cpp:555-567 | with each batch bound to its own matrices, a matrix is drawn iff its index is below the matrix count |
| CullingFrustum.FrustumCulling.constructor | Samples/FrustumCulling/CullingFrustum.cpp:248-275 | aligned camera block size, instance batch and instance slot size; an instance buffer of three slots; empty queues |
| CullingFrustum.FrustumCulling.Update | Samples/FrustumCulling/CullingFrustum.cpp:397-481 | both camera blocks are written into the frame's slot and the queues are the culled queues |
| CullingFrustum.FrustumCulling.WriteUniforms | Samples/FrustumCulling/CullingFrustum.cpp:419-430 | the main and observer blocks are copied side by side into the next frame's slot and nothing else of the buffer changes |
| CullingFrustum.WriteCameraBlocks | Samples/FrustumCulling/CullingFrustum.cpp:427-428 | the buffer afterwards is the old buffer with the main block at the offset and the observer block one aligned block later |
| CullingFrustum.FrustumCulling.CullQueues | Samples/FrustumCulling/CullingFrustum.cpp:433-478 | both queues are the culled queues and the uniform buffer is left as it was |
| CullingFrustum.FrustumCulling.Draw | Samples/FrustumCulling/CullingFrustum.cpp:313-395 | the main view draws the main queue; the observer view and the bounds are drawn exactly when their settings are on, from a copy of the main queue; after any bounds pass the frame's instance slot holds that queue's matrices |
| CullingFrustum.FrustumCulling.ObserverView | Samples/FrustumCulling/CullingFrustum.cpp:356-394 | the observer scene is drawn from a copy of the observer queue exactly when the second view is on; its bounds are drawn, consuming the queue, exactly when bounds are shown there too |
| MipMapVisual.LevelSizes | Samples/MipMapVisual/MipMapVisual.cpp:163-174 | the base is 128; level i is 2^(7-i) texels wide, at least 4, half the level before; there is a colour per level |
| MipMapVisual.FillLevel | Samples/MipMapVisual/MipMapVisual.cpp:176-180 | a fresh level buffer holding the colour in every texel |
| MipMapVisual.BuildMipChain | Samples/MipMapVisual/MipMapVisual.cpp:161-196 | max level 5, max LOD 6, and each level of the expected size and colour |
| MipMapVisual.RenderNode | Samples/MipMapVisual/MipMapVisual.cpp:23-37 | one draw per geometry index, each through the first geometry's vertex array |
| MipMapVisual.FirstVaoDraw | Samples/MipMapVisual/MipMapVisual.cpp:27 | the draw equals the geometry's own draw exactly when its vertex array is the first one |
| MarchingCube.ChunkIndexInverse | Samples/MarchingCube/MarchingCube.cpp:252-262 | the chunk at a grid position's index is the chunk at that position |
| MarchingCube.ChunkCount | Samples/MarchingCube/MarchingCube.cpp:96 | the grid holds 8192 chunks |
| MarchingCube.ChunkIndexInjective | Samples/MarchingCube/MarchingCube.cpp:252-262 | distinct grid positions get distinct indices |
| MarchingCube.FillColumn | Samples/MarchingCube/MarchingCube.cpp:254-259 | one z column of chunks is filled in order |
| MarchingCube.BuildChunks | Samples/MarchingCube/MarchingCube.cpp:250-262 | the chunk array lists every grid position in x, y, z order |
| MarchingCube.TotalSize | Samples/MarchingCube/MarchingCube.cpp:273-275 | the storage buffer is the chunk data rounded up to the alignment |
| MarchingCube.ChunkRanges | Samples/MarchingCube/MarchingCube.cpp:273-275 | chunk ranges fit in the buffer and do not overlap |
| MarchingCube.Regeneration | Samples/MarchingCube/MarchingCube.cpp:318-337 | one dispatch per chunk |
| MarchingCube.RegenerationAt | Samples/MarchingCube/MarchingCube.cpp:332-334 | the dispatch for chunk k binds range k and passes its position |
| MarchingCube.RegenerationRanges | Samples/MarchingCube/MarchingCube.cpp:332-334 | the dispatched ranges lie in the buffer and do not overlap |
| MarchingCube.MarchingCube.constructor | Samples/MarchingCube/MarchingCube.cpp:247-287 | all chunks, the update flag set and the buffer sizes computed |
| MarchingCube.MarchingCube.EditSettings | Samples/MarchingCube/MarchingCube.cpp:118-135 | the update flag is set when any setting changed and kept otherwise |
| MarchingCube.MarchingCube.Draw | Samples/MarchingCube/MarchingCube.cpp:300-381 | chunks are regenerated iff an update was pending, the flag is cleared, and every chunk's vertices are drawn |
| VectorField.ParticleMemorySize | Samples/VectorField/VectorField.cpp:306-307 | the particle buffer is the particle data rounded up to the alignment |
| VectorField.FieldMemorySize | Samples/VectorField/VectorField.cpp:356-358 | the field buffer is the field data rounded up to the alignment |
| VectorField.ParticleSlots | Samples/VectorField/VectorField.cpp:312-317 | particle i of slot s lies inside slot s and slots do not overlap |
| VectorField.InitialParticles | Samples/VectorField/VectorField.cpp:316-337 | one initial particle per index |
| VectorField.FillParticles | Samples/VectorField/VectorField.cpp:316-337 | the first particles of the mapped slot are the initial particles, the rest unchanged |
| VectorField.FieldIndexInverse | Samples/VectorField/VectorField.cpp:388-394 | a cell's index lies in the 32768-cell field and maps back to the cell |
| VectorField.FieldIndexOnto | Samples/VectorField/VectorField.cpp:388-394 | every index below the field size is some cell's index |
| VectorField.FillFieldColumn | Samples/VectorField/VectorField.cpp:389-399 | one z column of the field is filled |
| VectorField.FillField | Samples/VectorField/VectorField.cpp:381-403 | every field cell holds its noise force |
| VectorField.FieldInBuffer | Samples/VectorField/VectorField.cpp:356-358 | every cell lies inside the field buffer |
| VectorField.SlotRotation | Samples/VectorField/VectorField.cpp:431-438 | the read and write particle slots differ, and the written slot is read in the next frame |
| VectorField.FloorGroups | Samples/VectorField/VectorField.cpp:442-444 | the dispatched groups are the floor of particles over group size |
| VectorField.UniformBlocks | Samples/VectorField/VectorField.cpp:555-557 | the uniform block written in a frame fits in the buffer and is the block bound in the next frame |
| VectorField.VectorFieldSample.constructor | Samples/VectorField/VectorField.cpp:62 | the default particle box, nothing allocated, simulation on and field drawing off |
| VectorField.VectorFieldSample.Initialize | Samples/VectorField/VectorField.cpp:289-403 | buffer sizes, the initial particles and the noise field |
| VectorField.VectorFieldSample.Draw | Samples/VectorField/VectorField.cpp:409-533 | the compute pass runs iff the simulation is on, the field is drawn iff that setting is on, and the particles are always drawn |
| VectorField.VectorFieldSample.Update | Samples/VectorField/VectorField.cpp:535-560 | the block is copied to the frame's uniform slot |
| ModelImporter.LeBytes | common/Importer/ModelImporter.cpp:211-216 | an index is written as 4 bytes |
| ModelImporter.DecodeLeBytes | common/Importer/ModelImporter.cpp:211-216 | decoding the 4 written bytes gives back the index |
| ModelImporter.LeBytesDecode | common/Importer/ModelImporter.cpp:211-216 | every 4 bytes are the encoding of the index they decode to |
| ModelImporter.FirstNonTriangle | common/Importer/ModelImporter.cpp:210 | the first face that is not a triangle |
| ModelImporter.FaceBytes | common/Importer/ModelImporter.cpp:211-216 | a triangle is written as 12 bytes |
| ModelImporter.FaceBytesAt | common/Importer/ModelImporter.cpp:211-216 | bytes 4j..4j+4 of a face hold its index j |
| ModelImporter.IndexStream | common/Importer/ModelImporter.cpp:208-217 | k faces give 12k bytes |
| ModelImporter.IndexStreamPrefix | common/Importer/ModelImporter.cpp:208-217 | the stream of the first m faces is a prefix of the stream of the first n |
| ModelImporter.IndexStreamAt | common/Importer/ModelImporter.cpp:208-217 | index j of face k sits at byte (3k + j) * 4 |
| ModelImporter.PackIndices | common/Importer/ModelImporter.cpp:165-219 | success iff every face is a triangle, with the index stream; otherwise the error names the first non-triangle face |
| ModelImporter.FirstIsAt | common/Importer/ModelImporter.cpp:210 | the first non-triangle is the face found by a front-to-back search |
| ModelImporter.VertexRecord | common/Importer/ModelImporter.cpp:182-201 | one vertex is 11 floats |
| ModelImporter.VertexStream | common/Importer/ModelImporter.cpp:174-203 | k vertices give 11k floats |
| ModelImporter.VertexStreamAt | common/Importer/ModelImporter.cpp:174-203 | vertex k holds its position, its uv (0 without a texture channel), its normal and its tangent |
| ModelImporter.PackVertices | common/Importer/ModelImporter.cpp:176-203 | the normals are normalised in place and the vertices are the vertex stream over them |
| ModelImporter.PackVertex | common/Importer/ModelImporter.cpp:177-201 | normal x alone is normalised in place and vertex x's eleven floats are appended |
| ModelImporter.Normalized | common/Importer/ModelImporter.cpp:191 | each normal is replaced by its normalised form |
| ModelImporter.StreamIgnoresLater | common/Importer/ModelImporter.cpp:174-203 | the first k vertices depend only on the first k normals |
| ModelImporter.PackMesh | common/Importer/ModelImporter.cpp:156-242 | the contents of the vertex and index blocks initMesh fills: success iff the mesh is triangulated, with 11 floats per vertex and 12 bytes per face |
| ModelImporter.InitMesh | common/Importer/ModelImporter.cpp:156-242 | the mesh's normals are normalised and the blocks it fills hold PackMesh of it |
| ModelImporter.InitScene | common/Importer/ModelImporter.cpp:39-47 | every mesh is packed, in order, and its normals normalised; an error names the first mesh that fails |
| ModelImporter.InitNext | common/Importer/ModelImporter.cpp:45 | packing mesh x normalises its normals and leaves every other mesh's normals as they were |
| ModelImporter.LoadContent | common/Importer/ModelImporter.cpp:17-28 | no scene gives the importer's error; otherwise InitScene's result |
| ImportHelper.SumOverPermutation | common/Importer/ImportHelper.cpp:33-37 | a sum over models does not depend on the order they are taken in |
| ImportHelper.GroupedOrderIsPermutation | common/Importer/ImportHelper.cpp:33-73 | visiting the stride groups in key order visits every model exactly once |
| ImportHelper.GroupMembers | common/Importer/ImportHelper.cpp:33-37 | a stride group lists models of that stride in increasing order |
| ImportHelper.GroupPrefix | common/Importer/ImportHelper.cpp:33-37 | the part of a group before a member is the group of the models before it |
| ImportHelper.CountGroup | common/Importer/ImportHelper.cpp:35 | a model is in the group of its own stride once and in no other |
| ImportHelper.SortedKeys | common/Importer/ImportHelper.cpp:51 | the map's keys in increasing order, as std::map iterates them |
| ImportHelper.BytesOfAppend | common/Importer/ImportHelper.cpp:55-61 | the bytes of two runs of models are the concatenation of each run's bytes |
| ImportHelper.PrimitiveOf | common/Importer/ImportHelper.cpp:195-206 | 1 is points, 2 is lines, anything else triangles |
| ImportHelper.Descriptors | common/Importer/ImportHelper.cpp:179-193 | one descriptor per model |
| ImportHelper.GroupByStride | common/Importer/ImportHelper.cpp:33-37 | models are grouped by vertex stride and the index data size is the sum over all models |
| ImportHelper.CopyEach | common/Importer/ImportHelper.cpp:55-61 | consecutive memcpy calls lay the models' data out back to back |
| ImportHelper.CopyIndexData | common/Importer/ImportHelper.cpp:49-62 | the index buffer is every model's index data, group by group in key order |
| ImportHelper.FillVertexBuffer | common/Importer/ImportHelper.cpp:78-107 | a group's vertex buffer is its models' vertex data, in order |
| ImportHelper.AssignOne | common/Importer/ImportHelper.cpp:169-206 | one model's descriptor is set and the index and vertex counters advance by its counts |
| ImportHelper.AssignGroup | common/Importer/ImportHelper.cpp:166-207 | every model of the group gets its descriptor and no other descriptor changes |
| ImportHelper.LoadGroup | common/Importer/ImportHelper.cpp:73-208 | after group g, its vertex buffer exists and the descriptors of groups up to g are set |
| ImportHelper.PackIndices | common/Importer/ImportHelper.cpp:23-65 | the stride groups, their sorted keys and the packed index data |
| ImportHelper.AllGroupsAssigned | common/Importer/ImportHelper.cpp:167-179 | once every group is processed every descriptor is set |
| ImportHelper.GroupLookup | common/Importer/ImportHelper.cpp:26-51 | each key looks up its own stride group |
| ImportHelper.StridesAreKeys | common/Importer/ImportHelper.cpp:35-51 | every model's stride is a key |
| ImportHelper.LoadGroups | common/Importer/ImportHelper.cpp:73-208 | all descriptors and one vertex buffer per group |
| ImportHelper.LoadModelBuffer | common/Importer/ImportHelper.cpp:21-209 | the descriptors, the index buffer and one vertex buffer per stride key |
| ImportTextures.StepColorSpace | common/Importer/ImportHelper.cpp:224-232 | SRGB exactly when the first user's diffuse map is the texture; a height map is converted only when loaded from a file; only a raw upload lets an exception escape |
| ImportTextures.StepSeesImported | common/Importer/ImportHelper.cpp:246-250 | material edits made for earlier textures do not change what a later texture's step does |
| ImportTextures.LoadTextures | common/Importer/ImportHelper.cpp:211-300 | each texture before an escaping exception gets its step in order; the result is the importer's list, or the index of the texture whose exception escaped |
| ImportTextures.LoadOne | common/Importer/ImportHelper.cpp:219-297 | one texture's step, stored in place |
| ImportTextures.MaterialsAdvance | common/Importer/ImportHelper.cpp:246-250 | the materials after texture x are those after x - 1 with x's conversion applied |
| Scene.GetQueueDomain | common/Importer/Scene.cpp:528-547 | wireframe goes to Overlay, transparency to Transparent, clipping to AlphaTest, everything else to Geometry |
| Scene.ComputeMaterialPriority | common/Importer/Scene.cpp:521-526 | 1000 for transparency plus 100 for a mask texture |
| Scene.ComputeUboLayout | common/Importer/Scene.cpp:105-133 | four aligned regions (common, node, material, light) laid out back to back, each sized for every frame slot |
| Scene.UboRegionsDisjoint | common/Importer/Scene.cpp:105-133 | the four regions do not overlap and fill the buffer |
| Scene.BucketMultiplicity | common/Importer/Scene.cpp:470-505 | a visible node appears in its domain's bucket as often as it is visible and kept |
| Scene.DequeMultiplicity | common/Importer/Scene.cpp:470-505 | a node appears in the deque as often as it is visible and kept |
| Scene.DequeHalves | common/Importer/Scene.cpp:470-505 | the deque is the opaque nodes in reverse followed by the transparent ones in order |
| Scene.DequeDomainOrder | common/Importer/Scene.cpp:494-500 | every prepended node comes before every appended one |
| Scene.DequeOfSnoc | common/Importer/Scene.cpp:494-500 | visiting one more node pushes it to the front or the back |
| Scene.DequeUpToIsDequeOf | common/Importer/Scene.cpp:470-505 | the loop's deque after x nodes is the deque of the first x |
| Scene.BucketsUpToIsBucketsOf | common/Importer/Scene.cpp:470-505 | the loop's buckets after x nodes are the buckets of the first x |
| Scene.SortVisible | common/Importer/Scene.cpp:470-505 | the deque and the buckets of the visible nodes |
| Scene.NodeRecordAddressIsStageIndex | common/Importer/Scene.cpp:381-393 | the node range bound for a counter addresses node record counter |
| Scene.TestNode | common/Importer/Scene.cpp:219-260 | a node is visible iff it has geometry and its world box is In |
| Scene.CullNodes | common/Importer/Scene.cpp:219-260 | the visible nodes are the nodes passing TestNode, in order |
| Scene.BindTexture | common/Importer/Scene.cpp:339-375 | a slot gets the material's texture when its index is valid and the default otherwise, with its sampler |
| Scene.DrawOfSpec | common/Importer/Scene.cpp:395-464 | the GL state of a draw: the material's textures, its blending and culling, the node's record slot |
| Scene.NodeDrawsAt | common/Importer/Scene.cpp:395-464 | draw k of a node is the draw of its geometry k |
| Scene.QueueDrawsPrefix | common/Importer/Scene.cpp:297-314 | the draws of a prefix of the queue do not depend on what follows |
| Scene.QueueDrawsSuffix | common/Importer/Scene.cpp:297-314 | the draws of a queue's tail continue from the counter where the head stopped |
| Scene.DrawsFromAppend | common/Importer/Scene.cpp:297-314 | drawing two queues in turn is drawing their concatenation |
| Scene.DrawSorted | common/Importer/Scene.cpp:297-314 | the buckets are drawn in domain order from counter 0 |
| Scene.DrawNode | common/Importer/Scene.cpp:378-468 | ranges are rebound exactly at a 1024-node boundary, then one draw per geometry |
| Scene.DrawQueue | common/Importer/Scene.cpp:303-312 | the nodes of a bucket are drawn in order |
| Scene.DrawNextBucket | common/Importer/Scene.cpp:297-314 | one more domain's bucket is drawn |
| Scene.DrawAllBuckets | common/Importer/Scene.cpp:297-314 | every bucket is drawn in domain order |
| Scene.MaterialRecord | common/Importer/Scene.cpp:189-195 | the material's colours, shininess, transparency and clipping |
| Scene.Flushes | common/Importer/Scene.cpp:198-213 | the common, node, material and light ranges are flushed |
| Scene.UploadTransforms | common/Importer/Scene.cpp:179-183 | record k holds the transform of the k-th node of the queue, for every k the region holds; later records are unchanged; overrun iff the queue is longer than the region |
| Scene.UploadMaterials | common/Importer/Scene.cpp:185-196 | record k holds the k-th material, for every k the region holds; later records are unchanged; overrun iff there are more materials than records |
| Scene.UploadOrderMismatch | common/Importer/Scene.cpp:176-217 | two opaque nodes are uploaded in one order and drawn in the other |
| Scene.DrawReadsOwnTransform | common/Importer/Scene.cpp:381-393 | with transforms uploaded in draw order, draw p reads its own node's transform |
| Scene.Scene.constructor | common/Importer/Scene.cpp:105-133 | default textures, samplers, the uniform layout and the imported content; the culling switch as given |
| Scene.Scene.RenderNode | common/Importer/Scene.cpp:378-468 | the node's draws and a rebind at a 1024-node boundary; the counter advances |
| Scene.Scene.Culling | common/Importer/Scene.cpp:219-260 | with culling on and a frustum, the nodes in the frustum; otherwise every node |
| Scene.Scene.SortRenderQueue | common/Importer/Scene.cpp:470-519 | the queues are rebuilt from the visible nodes; the Transparent bucket always exists |
| Scene.Scene.Render | common/Importer/Scene.cpp:280-337 | the counter restarts, the queues are rebuilt and the buckets are drawn in domain order |
| Scene.Scene.RenderWithCamera | common/Importer/Scene.cpp:262-278 | culling against the camera, then render |
| Scene.Scene.UpdateBuffers | common/Importer/Scene.cpp:176-217 | node record k holds the k-th deque node's transform, material record k the k-th material, as far as the regions reach; the four ranges are flushed, sized by every node and material visited; overrun iff either list is longer than its region |
| Scene.Scene.UpdateBuffersInDrawOrder | common/Importer/Scene.cpp:176-217 | node record k holds the transform of the k-th node render() draws, as far as the region reaches; overrun iff either list is longer than its region |

## Left out

- OpenGL itself: every GL call is a trace entry or has no effect here. Shader compilation, texture and buffer creation, framebuffer setup, `createFrameBuffer` and `updateFrameBuffer` are not modelled.
- Floating-point arithmetic: floats are `real`. The values computed by shaders, noise and camera maths are not modelled.
- FPSCounter.FPSCounter.IncrementFPS: the float average is an `Average` value (zero or a sampled rate), not the division the source does.
- FPSCounter.FPSCounter.IncrementFPS and FPSCounter.FPSCounter.Update: `totalFPS` is an unbounded integer here, so the wrap-around of the source's `int` counter after 2^31 - 1 frames is not modelled. Both require `fpsSample != 0`; the source divides by it without a check, so a zero sample count is undefined behaviour there.
- ColorSpaceConverter, Blur and Bloom: work-group counts are the exact integer ceiling `CeilDiv(w, l)`. The source computes `std::ceil(w / (float)l)` in single precision, and float rounding for very large sizes is not modelled.
- Bloom.Reduced: the divisor `1 << (i + 1)` is an unbounded power of two here; the overflow of the source's 32-bit shift past 31 down-samples is not modelled.
- Skybox.Skybox.Render: the uniform block arrives as bytes. The source's `modelViewProjection = viewProj` assignment into the block that it then copies is not modelled, so the contents of the block are not tied to the camera.
- Foreign code enters as parameters: Assimp's scene, the procedural geometry generators, the plane tests behind the frustum classifier, Perlin noise, random engines and image loading and conversion.
- GLTypes.Align: rounding up to a multiple is specified; the library's implementation is not part of this model.
- UI code (ImGui) is left out. MarchingCube.MarchingCube.EditSettings models only the flags that request a rebuild.
- Concurrency is left out: unsynchronised buffer mapping, memory barriers and GPU timing.
- Scene.Scene.Render: the render loops run over values; the source walks references and pointers, and aliasing between the node list and the queues is not modelled.
- ModelImporter.InitMesh: the source returns `pmesh`, a pointer it never initialises. The store into an importer mesh is commented out, and so are the two `free` calls (ModelImporter.cpp:227-241). So the filled vertex and index blocks leak, and initScene discards every result. The model returns the blocks' contents so that they can be stated. It does not model the uninitialised return value or the leak.
- ModelImporter.InitScene: it collects initMesh's block contents, which the source's initScene drops.
- ModelImporter.PackIndices: the source's `assert` on a non-triangle face is an error result here.
- ModelImporter.VertexStream: the tangent is never written in the source (left uninitialised), so it is a parameter.
- VectorField.VectorFieldSample.Draw: the field draw's stride is `sizeof` of a mesh descriptor in the source; it is a parameter here.
- CullingFrustum.RenderBoundingBox: the source reads a node at a matrix index inside the batch loop, which can be out of range. That node is never used, so the read is not modelled.
- CullingFrustum.RenderBoundingBox and CullingFrustum.UploadInstances: with more matrices than the slot holds, memcpy writes past the mapped range (the source marks this with a TODO at CullingFrustum.cpp:494). The model copies only the bytes that fit and reports the rest through `overrun`, so it does not say what the extra bytes overwrite.
- CullingFrustum.MatrixData: the bytes of a `glm::mat4` are a parameter of 64 bytes; the float layout is not modelled.
- Scene.Scene.constructor: `frustumCulling`, which culling reads (Scene.cpp:224), is not declared in Scene.h, so its initial value is a constructor parameter.
- Scene.Scene.UpdateBuffers and Scene.Scene.UpdateBuffersInDrawOrder: the node and material regions hold 4096 records per uniform buffer (Scene.cpp:110-116). Past that, the source's loops keep writing into whatever follows in the mapped buffer. The model writes only the records that fit and reports the rest through `overrun`, so it does not say which neighbouring bytes the extra records overwrite.
- Enum numeric values (render queues, texture types, colour spaces) follow their declaration order.
- Empty stubs are not modelled, and neither are `download_asset.py` and `RunAllSamples.py`.

## Findings

| source | as written | input that shows it | evidently intended | confidence | as-written member | corrected member |
|---|---|---|---|---|---|---|
| common/Importer/Scene.cpp:176-217 | updateBuffers writes node transforms in render-deque order. Opaque nodes are pushed to the deque's front, so they end up reversed. render() draws the buckets in visiting order, and draw p reads record p. | two visible opaque nodes A then B: the deque is [B, A] but the draw order is [A, B], so A's draw reads B's transform | transforms uploaded in the order render() draws the nodes | not executed | Scene.UploadOrderMismatch | Scene.Scene.UpdateBuffersInDrawOrder |
| Samples/FrustumCulling/CullingFrustum.cpp:555-567 | every batch binds the same instance range at the start of the frame's slot and draws instances 0 to count - 1 | 3 matrices with a batch of 2: the second batch draws matrix 0 again and matrix 2 is never drawn (such a vector also overruns the slot, see Left out) | each batch binds the range holding its own matrices | not executed | CullingFrustum.BatchesDrawOnlyFirst | CullingFrustum.SlicedBatchesDrawAll |
