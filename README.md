# Vulkan renderer core, modelled in Dafny

This project models the decision procedures and book-keeping of a small
Vulkan renderer (vulkan_03): the swapchain negotiation, the queue-family
choice, the image-layout transition table, the named GPU resource registry
(`memoryBuffers`), the per-framebuffer command recording and the
acquire/submit/present protocol of a frame, the static scene geometry and
vertex layout, the flattening of an imported mesh, and the camera and
keyboard/mouse input state. The Vulkan, VMA, GLFW and Assimp calls are
replaced by opaque ids and explicit inputs. The properties the renderer
relies on are proved about that model.

Modules, one per source concern:

- `Base`: `uint32` and `uint16` ranges, the `uint32_t` wrap-around conversion, and the `Result`/`Option`/`Outcome` types. The error kinds are the renderer's `vulkan_setup_error`, `std::invalid_argument` and `std::runtime_error`.
- `Vk`: the numeric values of the Vulkan, GLFW and Assimp enumerants the core uses.
- `Swapchain`: the surface-format, present-mode and image-count choices of `createSwapChain`.
- `LayoutTransitions`: the transition table and aspect mask of `transitionImageLayout`.
- `ResourceRegistry`: the `memoryBuffers` class. It holds the `buffers` and `images` maps, the allocator as a set of live allocations, and one-shot command buffers. Ghost state records who owns each allocation, every GPU command executed and every allocation freed.
- `FrameProtocol`: the `renderer` fields used by `createDevice`, `createCommandBuffers` and `drawFrame`, plus a binary-semaphore state machine.
- `SceneData`, `VertexLayout`: `verticesSquare`, `indices`, the window size, and the `Vertex` descriptions and equality.
- `ModelLoading`: `model::loadModel` after the importer has run.
- `CameraInput`, `IoHandling`: the `camera` and `ioHandler` classes.
- `InstanceSetup`: the `vkMakeVersion` packing and `debugCallback`.

Behaviours of the code worth noting:

- `getBuffer` on a name that was never registered does not fail. `operator[]` inserts a value-initialised entry and returns its null handle (`ResourceRegistry.MemoryBuffers.GetBuffer`).
- The destructor of `memoryBuffers` destroys every entry and the allocator but does not clear the maps. It runs once, as a destructor, so the model states exactly-once freeing for that one run (`ResourceRegistry.MemoryBuffers.Teardown`) and has no idempotence claim. It also runs when setup failed before `init`, which the model covers (see Findings).
- `createGPUBuffer` under a name that is already taken copies the new bytes into the front of the existing buffer and keeps the rest of it (`ResourceRegistry.MemoryBuffers.CreateGPUBuffer`). If the name only holds the null entry a `getBuffer` left behind, the copy names the null buffer. The validation layer (enabled by `DEBUG`, renderer.h:3) reports that as an error, and `debugCallback` throws it. The staging buffer and the one-shot command buffer are then never freed (`ResourceRegistry.LookupBeforeUpload`). The renderer's own setup order uploads before any lookup, so it never takes this path.
- An unsupported layout transition throws `std::invalid_argument`, not a setup error (`LayoutTransitions.TransitionBarrier`).
- The queue-family loop keeps the last suitable family, although its comment says the first (`FrameProtocol.Renderer.CreateDevice`). Any suitable family works, so this is recorded as behaviour, not as a defect.

## Model

| member | source | states |
|---|---|---|
| Swapchain.ChooseSurfaceFormat | vulkan_03/renderer.cpp:177-188 | the result is an entry of the list; it is the sRGB-nonlinear B8G8R8A8_UNORM pair when the list has one, and the first entry otherwise |
| Swapchain.ChoosePresentMode | vulkan_03/renderer.cpp:189-203 | the loop returns mailbox if offered, else immediate if offered, else FIFO (the priority function); the result is offered or is FIFO |
| Swapchain.PresentModeOrderIndependent | vulkan_03/renderer.cpp:189-203 | two lists offering the same modes get the same present mode, whatever their order or repetitions |
| Swapchain.ImageCount | vulkan_03/renderer.cpp:206-210 | with no maximum the count is min+1 modulo 2^32; without wrap it never exceeds a nonzero maximum, lies in [min, max] when 0 < min <= max, and is min+1 when min < max or max = 0 |
| Swapchain.SingleImageSurface | vulkan_03/renderer.cpp:206-210 | min = max = 1 yields one image |
| Swapchain.UnboundedSurface | vulkan_03/renderer.cpp:206-210 | max = 0 yields min+1 |
| Swapchain.NegotiateSwapchain | vulkan_03/renderer.cpp:171-210 | fails with the setup error "mWindowSurface not supported." exactly when the surface is unsupported; otherwise it combines the image count, a listed surface format (the preferred one iff listed) and the priority present mode |
| FrameProtocol.LastSuitable | vulkan_03/renderer.cpp:124-134 | the greatest index whose family has the graphics bit and presentation support, or -1; no later family qualifies |
| FrameProtocol.SentinelIsNoIndex | vulkan_03/renderer.h:147 | `uint32_t mQueueFamilyIndex = -1` is 2^32-1, which no family of a 32-bit-counted list can have |
| FrameProtocol.Renderer.constructor | vulkan_03/renderer.h:147 | the queue-family index starts at the sentinel, with no command buffers and an empty queue history |
| FrameProtocol.Renderer.CreateDevice | vulkan_03/renderer.cpp:124-134 | the loop leaves the index of the last suitable family; the setup error "suitable queue family on GPU 0 not found." is raised exactly when the sentinel survives, which from the initial state means no family qualifies; on success the allocator is created |
| FrameProtocol.RecordingDrawsScene | vulkan_03/renderer.cpp:535-543 | each recording is one render pass on its framebuffer that binds the index buffer as 16-bit and draws 15 indices with instanceCount 1 |
| FrameProtocol.Renderer.LookedUp | vulkan_03/renderer.cpp:1105-1108 | the registry after two `operator[]` lookups: both names are keys, every existing entry is kept, and a new key holds the default entry |
| FrameProtocol.Renderer.CreateCommandBuffers | vulkan_03/renderer.cpp:503-547 | one command buffer per framebuffer; buffer i is recorded against framebuffer i with the handles `getBuffer` yields for "vertexBuffer" and "indexBuffer"; with no framebuffers the registry is unchanged, otherwise both names have been looked up |
| FrameProtocol.ReplayAppend | vulkan_03/renderer.cpp:611-639 | replaying a concatenation of queue operations is replaying the parts in turn |
| FrameProtocol.FrameBalanced | vulkan_03/renderer.cpp:611-636 | acquire (signals imageAvailable), submit (waits imageAvailable at colour-attachment output, signals renderFinished), present (waits renderFinished) is a correct binary-semaphore use from idle back to idle; submitting without the acquire is a misuse |
| FrameProtocol.FramesBalanced | vulkan_03/renderer.cpp:611-636 | any number of frames in a row uses the semaphores correctly and ends idle |
| FrameProtocol.Renderer.DrawFrame | vulkan_03/renderer.cpp:611-636 | a frame appends acquire / submit of the command buffer at the acquired index / present to the queue history and keeps the semaphores balanced |
| LayoutTransitions.AspectMask | vulkan_03/renderer.cpp:1034-1045 | DEPTH iff the new layout is depth-stencil-attachment, STENCIL iff additionally the format is D32_SFLOAT_S8_UINT or D24_UNORM_S8_UINT, COLOR iff not, and no other bit |
| LayoutTransitions.TransitionBarrier | vulkan_03/renderer.cpp:1055-1082 | accepts exactly the three supported pairs and fails with "unsupported layout transition" on every other; the access masks and stages of each accepted pair, and the aspect mask |
| ResourceRegistry.EntriesDisjoint | vulkan_03/renderer.h:123-124 | in a consistent registry no two entries, in either map or across both, share a non-null allocation |
| ResourceRegistry.Emplaced | vulkan_03/renderer.cpp:911 | `emplace` adds the name, keeps every existing entry, and stores the new value only when the name was absent |
| ResourceRegistry.BufferClaim | vulkan_03/renderer.cpp:911 | an emplaced buffer allocation is owned by its entry, or by nobody (leaked) exactly when the name was taken |
| ResourceRegistry.ImageClaim | vulkan_03/renderer.cpp:975 | an emplaced image allocation is owned by its entry, or by nobody (leaked) exactly when the name was taken |
| ResourceRegistry.UploadChain | vulkan_03/renderer.cpp:961-973 | the image upload's barrier, copy, barrier take the image from undefined to shader-read-only through supported transitions, copying only in the transfer-destination layout |
| ResourceRegistry.DepthChain | vulkan_03/renderer.cpp:1017 | the depth buffer's single barrier takes it from undefined to depth-stencil-attachment through a supported transition |
| ResourceRegistry.MemoryBuffers.constructor | vulkan_03/renderer.cpp:866-868 | empty maps, no allocator, nothing live |
| ResourceRegistry.MemoryBuffers.Init | vulkan_03/renderer.cpp:1096-1103 | creates the allocator |
| ResourceRegistry.MemoryBuffers.Allocate | vulkan_03/renderer.cpp:910 | a fresh, previously dead allocation becomes live and unowned, keeping the registry consistent |
| ResourceRegistry.MemoryBuffers.VmaDestroy | vulkan_03/renderer.cpp:875 | a non-null allocation, which needs a live allocation and an allocator not yet destroyed, leaves the live set and is logged as freed; a null one is ignored |
| ResourceRegistry.MemoryBuffers.Free | vulkan_03/renderer.cpp:919 | an unowned live allocation is freed through an allocator not yet destroyed and forgotten, keeping the registry consistent |
| ResourceRegistry.MemoryBuffers.EmplaceBuffer | vulkan_03/renderer.cpp:911 | the buffer map becomes the emplace of the entry; the allocation's owner becomes its claim |
| ResourceRegistry.MemoryBuffers.EmplaceImage | vulkan_03/renderer.cpp:975 | the image map becomes the emplace of the entry; the allocation's owner becomes its claim |
| ResourceRegistry.MemoryBuffers.BeginSingleTimeCommands | vulkan_03/renderer.cpp:732-748 | a fresh command buffer becomes open |
| ResourceRegistry.MemoryBuffers.EndSingleTimeCommands | vulkan_03/renderer.cpp:750-760 | the command buffer is freed |
| ResourceRegistry.WrittenPrefix | vulkan_03/renderer.cpp:914-916 | a copy to offset 0 of a non-null buffer replaces its first bytes and keeps any longer tail; other buffers are unchanged |
| ResourceRegistry.ReusedNameKeepsTail | vulkan_03/renderer.cpp:911-917 | 8 bytes uploaded under a name holding a 16-byte buffer leave its last 8 bytes in place |
| ResourceRegistry.MemoryBuffers.CopyBuffer | vulkan_03/renderer.cpp:913-917 | succeeds iff the destination is not null; then the first `size` staged bytes are written to the front of the destination, the rest of it and every other buffer unchanged, one copy command is logged and no command buffer stays open; otherwise it throws the validation error with the command buffer left open and no memory or log change |
| ResourceRegistry.MemoryBuffers.CopyBufferToImage | vulkan_03/renderer.cpp:963-971 | the image holds the staged pixels; one copy in the transfer-destination layout is logged; no command buffer stays open |
| ResourceRegistry.MemoryBuffers.Stage | vulkan_03/renderer.cpp:887-900 | a fresh unowned staging allocation holding the data |
| ResourceRegistry.MemoryBuffers.AllocateBufferEntry | vulkan_03/renderer.cpp:902-911 | a fresh allocation emplaced under the name, owned by its claim, with nothing written to it yet |
| ResourceRegistry.MemoryBuffers.CopyAndFree | vulkan_03/renderer.cpp:913-919 | succeeds iff the destination is not null; then the staged bytes are written to the front of the destination, everything else unchanged, and the staging allocation is freed; otherwise it throws, the staging allocation stays live and nothing else changes but the open command buffer |
| ResourceRegistry.MemoryBuffers.UploadPixels | vulkan_03/renderer.cpp:961-973 | barrier, copy, barrier are logged in that order and form a valid layout chain ending shader-read-only |
| ResourceRegistry.MemoryBuffers.CreateFilledImage | vulkan_03/renderer.cpp:940-973 | a fresh unowned image holding the pixels, in a valid chain to shader-read-only |
| ResourceRegistry.MemoryBuffers.UploadBuffer | vulkan_03/renderer.cpp:902-919 | the new buffer is emplaced; the copy succeeds iff the buffer the name maps to afterwards is not null; on success the bytes are written to its front, no other memory changes and the staging allocation is freed; on failure the staging allocation stays live and the command buffer open |
| ResourceRegistry.MemoryBuffers.StoreImage | vulkan_03/renderer.cpp:975-977 | the image is emplaced and then the staging allocation is freed |
| ResourceRegistry.MemoryBuffers.UploadImage | vulkan_03/renderer.cpp:940-977 | the new image is filled, moved to shader-read-only, emplaced; the staging allocation is freed |
| ResourceRegistry.MemoryBuffers.CreateDepthImage | vulkan_03/renderer.cpp:996-1017 | a fresh unowned image moved from undefined to depth-stencil-attachment |
| ResourceRegistry.MemoryBuffers.TransitionImageLayout | vulkan_03/renderer.cpp:1022-1094 | succeeds iff the pair is supported, logging its barrier and freeing its command buffer; otherwise it fails with "unsupported layout transition", logs nothing and leaves the begun command buffer open |
| ResourceRegistry.MemoryBuffers.CreateGPUBuffer | vulkan_03/renderer.cpp:885-920 | the map is the emplace and the new allocation is leaked iff the name was taken; it throws iff the name already held a null buffer; on success exactly one new allocation stays live, the staging one is freed, and the whole memory afterwards is the staged bytes plus the data written to the front of the buffer the name maps to; a new name always succeeds and its buffer holds exactly the data; on failure both allocations stay live and unowned, one command buffer stays open and nothing is logged |
| ResourceRegistry.LookupBeforeUpload | vulkan_03/renderer.cpp:911-916 | `getBuffer` on a new name, then `createGPUBuffer` under it, throws the validation error and leaves the null entry in place |
| ResourceRegistry.MemoryBuffers.CreateGPUImage | vulkan_03/renderer.cpp:922-978 | exactly one new allocation stays live; the staging one is freed before return; the map is the emplace; the whole memory afterwards: the staging buffer and the new image hold the pixels, nothing else changes; its layout chain is undefined, transfer-dst (copy), shader-read-only |
| ResourceRegistry.MemoryBuffers.CreateUniformBuffer | vulkan_03/renderer.cpp:980-992 | one new live allocation emplaced under the name, leaked iff the name was taken, with nothing written to it |
| ResourceRegistry.MemoryBuffers.CreateDepthBuffer | vulkan_03/renderer.cpp:994-1020 | one new live image emplaced under the name, moved from undefined to depth-stencil-attachment |
| ResourceRegistry.MemoryBuffers.GetBuffer | vulkan_03/renderer.cpp:1105-1108 | a present name yields its buffer and changes nothing; a missing name inserts the default entry and yields the null handle; no lookup result changes |
| ResourceRegistry.MemoryBuffers.Teardown | vulkan_03/renderer.cpp:870-883 | (corrected destructor, see Findings) every allocation owned by an entry is freed exactly once and nothing else is freed; what stays live is exactly what was leaked; every free goes through an allocator not yet destroyed, so the allocator is destroyed only after the entries; a created allocator is destroyed, one never created is left alone |
| ResourceRegistry.MemoryBuffers.DestroyAllocatorAsWritten | vulkan_03/renderer.cpp:882 | the allocator is destroyed whatever its state, and the destruction is flagged as uninitialised iff it was never created |
| ResourceRegistry.MemoryBuffers.DestroyAllocator | vulkan_03/renderer.cpp:882 | a created allocator is destroyed, any other is left as it was |
| ResourceRegistry.DestroyAfterSetupErrorAsWritten | vulkan_03/renderer.cpp:134-160 | a registry constructed and destroyed without `init` destroys an uninitialised allocator |
| ResourceRegistry.DestroyAfterSetupError | vulkan_03/renderer.cpp:134-160 | with the corrected destructor the same run destroys no allocator and frees nothing |
| SceneData.Triangles | vulkan_03/renderer.h:35-39 | the triangles of a list are its consecutive index triples, a third as many |
| SceneData.IndicesValid | vulkan_03/renderer.h:23-39 | 15 indices, 8 vertices, every index below 8, 5 whole triangles |
| VertexLayout.GetBindingDescription | vulkan_03/rendererStructs.cpp:4-10 | binding 0, advanced per vertex, with a stride of the whole vertex: two `vec3` and one `vec2` of 4-byte floats |
| VertexLayout.GetAttributeDescriptions | vulkan_03/rendererStructs.cpp:12-31 | three attribute descriptions |
| VertexLayout.AttributesMatchVertex | vulkan_03/rendererStructs.cpp:4-31 | binding 0, stride 32, per-vertex rate; attribute k is location k on binding 0 with a float format sized like its field (3, 3, 2) at the field's offset; the attributes tile the stride exactly |
| VertexLayout.AttributesInsideStride | vulkan_03/rendererStructs.cpp:18-28 | offsets strictly increase with the location and every attribute fits in the stride |
| VertexLayout.VertexEqualsAsWritten | vulkan_03/rendererStructs.cpp:33-36 | a true comparison forces the right operand's position to equal its colour, so a vertex whose position differs from its colour is never equal to itself |
| VertexLayout.AsWrittenNotReflexive | vulkan_03/rendererStructs.cpp:33-36 | `v == v` is false whenever v.pos != v.color |
| VertexLayout.AsWrittenNotSymmetric | vulkan_03/rendererStructs.cpp:33-36 | two vertices that compare equal in one order and unequal in the other |
| VertexLayout.VertexEquals | vulkan_03/rendererStructs.cpp:33-36 | the member-wise comparison holds iff the vertices are equal |
| VertexLayout.VertexEqualsEquivalence | vulkan_03/rendererStructs.cpp:33-36 | the member-wise comparison is reflexive, symmetric and transitive |
| ModelLoading.Flatten | vulkan_03/model.cpp:82-91 | 3 x faces indices; index 3i+j is index j of face i |
| ModelLoading.FlattenTriangles | vulkan_03/model.cpp:82-91 | cutting the flattened list into triples gives back each face |
| ModelLoading.FlattenValid | vulkan_03/model.cpp:82-91 | faces naming existing vertices flatten to a valid triangle list |
| ModelLoading.Resized | vulkan_03/model.cpp:83 | `resize` keeps the prefix and pads with the fill value to the new length |
| ModelLoading.Model.constructor | vulkan_03/model.h:21-26 | no vertices, no indices, black colour |
| ModelLoading.Model.LoadModel | vulkan_03/model.cpp:51-104 | fails with "failed to load model", changing nothing, exactly when the scene is null, incomplete or rootless; otherwise only mesh 0 is read: the indices are its flattened faces and vertex i has its position i, UV i and the model colour |
| CameraInput.KeysAfter | vulkan_03/camera.cpp:59-68 | only an in-range key can change: PRESS sets it, RELEASE clears it, any other action or a key >= 1024 leaves the table unchanged |
| CameraInput.PressRelease | vulkan_03/camera.cpp:59-68 | press then release of an up key restores the table |
| CameraInput.KeysAfterIdempotent | vulkan_03/camera.cpp:59-68 | repeating an event changes nothing more |
| CameraInput.UnknownKeyIgnored | vulkan_03/camera.cpp:59-68 | the key -1 wrapped to uint32 changes nothing |
| CameraInput.WrapDegrees | vulkan_03/camera.cpp:41 | `glm::mod(x, 360)` is in [0, 360) and differs from x by a whole number of turns |
| CameraInput.WrapDegreesFixes | vulkan_03/camera.cpp:41 | an angle already in [0, 360) is unchanged |
| CameraInput.ClampPitch | vulkan_03/camera.cpp:44-47 | the result lies in [-89, 89], equals the input inside that range and the nearer limit outside it |
| CameraInput.ClampPitchMonotone | vulkan_03/camera.cpp:44-47 | the clamp preserves order |
| CameraInput.Camera.constructor | vulkan_03/camera.cpp:3-14 | sensitivity 0.1, yaw 90, pitch 0, no key down, zero offsets, the skip-next-mouse flag set |
| CameraInput.Camera.KeyAction | vulkan_03/camera.cpp:59-68 | the key table becomes `KeysAfter` of the old one |
| CameraInput.Camera.MouseAction | vulkan_03/camera.cpp:70-82 | the last position becomes the event's; the flag is cleared; the offset is zero if the flag was set, else it grows by the movement with y inverted |
| CameraInput.Camera.Move | vulkan_03/camera.cpp:22-57 | pitch is the clamped sum in [-89, 89], yaw is the wrapped sum in [0, 360), the offset is zero and the frame time is the argument |
| IoHandling.LastCursorMode | vulkan_03/ioHandler.cpp:40-69 | the cursor mode last set, which was set by some call, or none when no call set one |
| IoHandling.FocusAfter | vulkan_03/ioHandler.cpp:44-58 | focus flips iff the key is BACKSPACE and the action PRESS |
| IoHandling.CallsFor | vulkan_03/ioHandler.cpp:40-66 | a BACKSPACE press sets the cursor mode of the new focus; ESCAPE with any action requests close; nothing else calls GLFW |
| IoHandling.BackspaceTwice | vulkan_03/ioHandler.cpp:44-58 | two BACKSPACE presses restore the focus |
| IoHandling.CursorTracksFocus | vulkan_03/ioHandler.cpp:40-69 | if the last cursor mode matched the focus before a key event it matches after it |
| IoHandling.IoHandler.constructor | vulkan_03/ioHandler.h:13-29 | the handler starts with focus and its camera |
| IoHandling.IoHandler.Initialize | vulkan_03/ioHandler.cpp:22-30 | registers both callbacks, disables the cursor and sets the user pointer, so the cursor matches a focused window |
| IoHandling.IoHandler.KeyCallback | vulkan_03/ioHandler.cpp:40-69 | focus and GLFW calls follow `FocusAfter` and `CallsFor`; the camera's keys follow `KeysAfter` with the same key and action; cursor-matches-focus is preserved |
| IoHandling.IoHandler.GlfwKeyCallback | vulkan_03/ioHandler.cpp:3-6 | GLFW's int arguments reach `keyCallback` converted to uint32 |
| IoHandling.IoHandler.MouseCallback | vulkan_03/ioHandler.cpp:71-74 | the camera sees exactly `mouseAction(xpos, ypos)` |
| InstanceSetup.MakeVersion | vulkan_03/renderer.cpp:79 | for major < 1024, minor < 1024, patch < 4096 the three fields decode back |
| InstanceSetup.VersionDecodeEncode | vulkan_03/renderer.cpp:79 | every 32-bit word is the packing of its own fields |
| InstanceSetup.RequestedVersions | vulkan_03/renderer.cpp:79-84 | 1.0.61 packs to 0x0040003D and 0.1.0 to 0x1000 |
| InstanceSetup.DebugCallback | vulkan_03/renderer.cpp:762-815 | throws a runtime error with the message iff the ERROR bit is set, else returns VK_FALSE |
| InstanceSetup.OnlyErrorsThrow | vulkan_03/renderer.cpp:105-115 | of the registered report kinds only an error throws, and DEBUG is not registered |

## Left out

- Vulkan object creation and destruction (instance, device, swapchain, render pass, framebuffers, descriptor sets, pipeline, sampler, image views, shader modules): foreign driver calls. Their handles appear only as opaque numbers.
- ResourceRegistry.NullDestinationReport: the text of the validation layer's error for a copy into the null buffer is a stand-in. The layer is not part of this model, only the fact that it reports an error, which `debugCallback` throws.
- ResourceRegistry.MemoryBuffers.CreateGPUBuffer: buffer sizes are not tracked. Uploading under a taken name with more bytes than the existing buffer holds is invalid usage: the validation layer reports an error and `debugCallback` throws, as for a null destination. The model instead returns success and extends the buffer, so its "fails iff the name holds a null buffer" misses this case. The same holds for CopyBuffer, CopyAndFree and UploadBuffer.
- VMA and memory mapping: the allocator is the set of live allocations, and `memcpy` into mapped memory is a map from handles to byte sequences. Memory contents of a destroyed staging buffer are not erased, since nothing reads them again.
- ResourceRegistry.MemoryBuffers.Teardown: the maps are `std::unordered_map`, so the model destroys entries in an arbitrary order. It does not model the console output naming each entry.
- CPU/GPU synchronisation (`waitIdle`, fences, the unbounded acquire timeout) and real concurrency: only the order of queue operations and the semaphore discipline are modelled.
- FrameProtocol.Renderer.DrawFrame: the acquired image index is a parameter, and its being below the number of command buffers is a precondition. The presentation engine guarantees that bound.
- FrameProtocol.Renderer.CreateDevice: presentation support per family is an input (`glfwGetPhysicalDevicePresentationSupport`), and device creation itself is not modelled.
- Swapchain.NegotiateSwapchain: surface support, capabilities, formats and present modes are inputs from the driver.
- File and asset I/O (shader files, `stbi_load`, Assimp `ReadFile`): the imported scene is an input record, `None` standing for a null scene pointer.
- ModelLoading.Model.LoadModel: the `std::random_device` colour is a parameter. The model requires a first mesh, three indices per face, UV channel 0 and fewer than 2^32 flattened indices (three times the face count), so that every index position fits the `uint32_t` loop counter. The source reads these unchecked (undefined behaviour or wrap-around otherwise).
- CameraInput.Camera.Move: the position update from W/A/S/D and the trigonometric front vector are floating-point work left out. Floats are reals, so rounding and NaN are not captured.
- Debug-callback registration through `vkGetInstanceProcAddr`: a foreign function lookup.
- engine.cpp and main.cpp (window creation, main loop, fps averaging, exit codes): I/O glue.
- The `hash<Vertex>` specialisation: it rests on glm's vector hash, which is not part of this model.
- Dead code: `renderer::random`, `vulkanObj`, `super`/`sub`, `ioHandler::callEveryFrameNeviemBlbost` and the commented-out obj loader.

## Findings

| source | as written | input that shows it | evidently intended | confidence | as-written member | corrected member |
|---|---|---|---|---|---|---|
| vulkan_03/renderer.cpp:882 | `vmaDestroyAllocator(allocator)` runs unconditionally in the destructor, while `allocator` is only set by `init` (renderer.cpp:1102), which `createDevice` reaches after a possible setup error (renderer.cpp:134, 160) | no suitable queue family: `initialize` rethrows and the `renderer` with its `memoryBuffers` is destroyed with `allocator` never initialised | destroy the allocator only when `init` created it (a null-initialised handle is ignored by VMA) | not executed | ResourceRegistry.DestroyAfterSetupErrorAsWritten | ResourceRegistry.DestroyAfterSetupError |
| vulkan_03/rendererStructs.cpp:33-36 | `Vertex::operator==` compares the other vertex's `pos` with this vertex's `color` | any vertex with pos (0,0,0) and color (1,0,0) compares unequal to itself; ordered pairs compare differently | member-wise comparison: pos with pos, color with color, texCoord with texCoord | not executed | VertexLayout.AsWrittenNotReflexive | VertexLayout.VertexEqualsEquivalence |
