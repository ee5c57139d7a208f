# tramogi core, modelled in Dafny

tramogi is a small C++ Vulkan renderer. This project models the decisions its core code makes: what it asks the driver for, in what order, and how it reacts to what the driver answers. Vulkan, GLFW and the file loaders are not modelled. What they would answer is passed in as an input.

The modules follow the source files:

- `allocator.dfy` (`Allocator`): memory-type selection and allocation requests.
- `instance.dfy` (`Instances`): the layer and extension requirement checks and `Instance::init`.
- `physical_device.dfy` (`PhysicalDevices`): device suitability, scoring through a `std::greater` multimap, the device pick, and the depth-format choice.
- `device.dfy` (`Devices`): sync objects, graphics submissions, the present-result classification, command-buffer allocation and the fence wait loop.
- `command_buffer.dfy` (`CommandBuffers`): the command-buffer wrapper's type tag and its recording state.
- `buffer.dfy` (`Buffers`): the four buffer kinds, and the map, unmap and upload state.
- `texture.dfy` (`Textures`): `calculate_mipmap_levels` and `Texture::init`.
- `image_data.dfy` (`ImageIo`): `ImageData`'s mip count, byte size and loading.
- `model.dfy` (`Models`): vertex de-duplication in `Model::load_from_obj_file`.
- `keyboard.dfy` (`Keyboards`) and `input.dfy` (`Inputs`): the two key-state tables.
- Three modules come from `src/main.cpp`:
  - `swapchain.dfy` (`Swapchain`): the swapchain parameters;
  - `mipmaps.dfy` (`Mipmaps`): the mip-chain command stream and the one-shot layout transition;
  - `frame_loop.dfy` (`Application`): `draw_frame`, the frame rotation and the application's `find_memory_type`.
- `vulkan.dfy` (`Vk`) holds the Vulkan enumerations and flag bits the core uses. The values are taken from the Vulkan headers.
- `wrappers.dfy` (`Wrappers`) holds `Option` and `Result`. `Err` carries the error text the source returns or throws.

Code that changes objects in place is modelled as Dafny classes:

- Each method's `modifies` clause names what it writes, and its `ensures` clauses give the new state of everything it writes.
- Loops in the source are loops in the model, each with its invariants.
- Pure decisions are functions, and lemmas relate them to reference definitions.

In four places the code does something other than what it evidently means; "## Findings" lists them. In each place the operation itself is modelled as the code is written. The corrected behaviour is a separate member with its intended property proved.

## Model

| member | source | states |
|---|---|---|
| Allocator.FirstMemoryType | src/graphics/allocator.cpp:19-26 | The least memory-type index whose filter bit is set and whose flags include the requested properties; None exactly when no index qualifies. |
| Allocator.FindMemoryType | src/graphics/allocator.cpp:13-27 | The scan returns the least qualifying index, or fails with "No suitable memory type" exactly when none qualifies; it agrees with FirstMemoryType. |
| Allocator.EmptyFilterFails | src/graphics/allocator.cpp:20 | With a type filter of 0 no memory type qualifies, so the search always fails. |
| Allocator.PropertiesFor | src/graphics/allocator.cpp:34-38 | Host asks for host-visible and host-coherent memory and not device-local; Gpu asks for device-local only. |
| Allocator.AllocateMemory | src/graphics/allocator.cpp:29-55 | The request is for exactly the required size, at the first memory type that qualifies for the class; a failed search is passed on as the same error. |
| Instances.ExtensionNames | src/graphics/instance.cpp:42-61 | The names of the enumerated extension properties, in order. |
| Instances.LayerNames | src/graphics/instance.cpp:63-78 | The names of the enumerated layer properties, in order. |
| Instances.CheckExtensions | src/graphics/instance.cpp:42-61 | True exactly when every required extension name is among the available names. |
| Instances.CheckLayers | src/graphics/instance.cpp:63-78 | True exactly when every required layer name is among the available names. |
| Instances.RequiredLayers | src/graphics/instance.cpp:126-130 | The validation layer when validation is enabled, otherwise no layer. |
| Instances.RequiredExtensions | src/graphics/instance.cpp:125-130 | The caller's extensions in order, followed by the debug-utils extension when validation is enabled. |
| Instances.Instance.constructor | src/graphics/instance.cpp:30-37 | No instance and no debug messenger. |
| Instances.Instance.Init | src/graphics/instance.cpp:116-154 | Layers are checked first, then extensions, each failure with its own message and nothing created; on success the instance asks for API 1.4 with the required extensions and no enabled layers, and the messenger exists when validation is on. |
| PhysicalDevices.FindIfDiffers | src/graphics/physical_device.cpp:57-62 | find_if with the strcmp predicate as written: the first available name that DIFFERS from the required one; it stops before the end exactly when such a name exists. |
| PhysicalDevices.FindIfEqual | src/graphics/physical_device.cpp:57-62 | The corrected lookup: the first available name equal to the required one; it stops before the end exactly when the name is present. |
| PhysicalDevices.AbsentExtensionIsFoundAsWritten | src/graphics/physical_device.cpp:60 | As written, a device listing only an unrelated extension passes the check for the swapchain extension. |
| PhysicalDevices.PresentExtensionIsMissingAsWritten | src/graphics/physical_device.cpp:60 | As written, a device listing only the swapchain extension fails the check for it. |
| PhysicalDevices.TwoDistinctNamesPassAsWritten | src/graphics/physical_device.cpp:55-67 | As written, any two different available names satisfy every extension requirement. |
| PhysicalDevices.GraphicsFamily | src/graphics/physical_device.cpp:77-92 | The first queue family with the graphics bit, or the family count when none has it. |
| PhysicalDevices.PresentFamily | src/graphics/physical_device.cpp:78-92 | The first queue family that supports presenting to the surface, or the family count when none does. |
| PhysicalDevices.Suitableness | src/graphics/physical_device.cpp:38-123 | Suitable exactly when API 1.3 is available, the extension lookup passes as written, anisotropy is supported and both families were found; the indices are the first graphics family and the first present family. |
| PhysicalDevices.GetDeviceSuitableness | src/graphics/physical_device.cpp:38-123 | The step-by-step gate evaluation computes Suitableness. |
| PhysicalDevices.DeviceScore | src/graphics/physical_device.cpp:125-138 | 1000 for a discrete GPU, 200 for an integrated GPU, 100 otherwise; always positive. |
| PhysicalDevices.ScoreRanking | src/graphics/physical_device.cpp:129-135 | Discrete outranks every other type, and integrated outranks every type except discrete. |
| PhysicalDevices.UpperBound | src/graphics/physical_device.cpp:158-162 | The position where a descending multimap inserts a key: after every entry with a key at least as large, before the first smaller one. |
| PhysicalDevices.MultimapInsert | src/graphics/physical_device.cpp:161 | Insertion puts the entry at UpperBound, with the rest of the map unchanged around it. |
| PhysicalDevices.MultimapInsertFront | src/graphics/physical_device.cpp:158-162 | After an insertion the front entry is the new one exactly when its score is strictly greater than the old front's; the entries are the old ones plus the new one. |
| PhysicalDevices.SuitableFlags | src/graphics/physical_device.cpp:148-156 | The suitability of each enumerated device, in enumeration order. |
| PhysicalDevices.Scores | src/graphics/physical_device.cpp:159-161 | The score of each enumerated device, in enumeration order. |
| PhysicalDevices.ChooseDevice | src/graphics/physical_device.cpp:153-170 | The earliest suitable device with the highest score, or None exactly when no device is suitable. |
| PhysicalDevices.ChoiceIsUnique | src/graphics/physical_device.cpp:158-170 | At most one device is the earliest suitable device with the highest score, so the pick is well defined. |
| PhysicalDevices.ScoreInsertStep | src/graphics/physical_device.cpp:159-162 | Inserting one more suitable device keeps every entry a (score, index) pair and keeps the pick among the devices so far at the front. |
| PhysicalDevices.ScoreSuitableDevices | src/graphics/physical_device.cpp:158-162 | Filling the multimap with the suitable devices leaves ChooseDevice's pick at the front, and leaves the map empty exactly when no device is suitable. |
| PhysicalDevices.FirstPositiveScore | src/graphics/physical_device.cpp:164-170 | The loop stops at the first entry with a positive score; every entry before it scores 0. |
| PhysicalDevices.PhysicalDevice.constructor | src/graphics/physical_device.cpp:33 | The null device handle. |
| PhysicalDevices.PhysicalDevice.Init | src/graphics/physical_device.cpp:140-179 | With no devices: error "No GPU that supports Vulkan found" and nothing changed. With a pick: that device and its suitableness record. With no suitable device: nothing is set, and the error "No suitable device found" is raised only when no earlier handle is left. |
| PhysicalDevices.PhysicalDevice.GetDepthFormat | src/graphics/physical_device.cpp:181-198 | The first of D32Sfloat, D32SfloatS8Uint, D24UnormS8Uint whose optimal-tiling features include depth-stencil attachment; the error exactly when none has them. |
| Devices.PresentResult | src/graphics/device.cpp:100-115 | Ok exactly when presentKHR returned something other than out-of-date or suboptimal; out of date is reported the same way whether returned or thrown; any other thrown code is "Unexpected present error". |
| Devices.Device.constructor | src/graphics/device.cpp:41 | No sync objects, nothing submitted and no queue waits. |
| Devices.Device.CreateSyncObjects | src/graphics/device.cpp:186-200 | Exactly two present semaphores, two render semaphores and two fences, all fences signaled and all six objects new and distinct; queue state untouched. |
| Devices.Device.SubmitGraphics | src/graphics/device.cpp:88-98 | One submission is appended; it carries the frame's fence exactly when asked to wait for it; nothing else changes. |
| Devices.Device.WaitGraphicsQueue | src/graphics/device.cpp:160-164 | One more queue wait; nothing else changes. |
| Devices.Device.Submit | src/graphics/device.cpp:117-128 | The buffer is submitted without a fence, and the host waits for the queue exactly when the buffer was begun as one-time. |
| Devices.Device.ResetFence | src/graphics/device.cpp:166-168 | Only the given frame's fence becomes unsignaled. |
| Devices.Device.AllocateCommandBuffers | src/graphics/device.cpp:134-148 | Exactly `count` new buffers, in pool order, each reusable and not recording. |
| Devices.Device.AllocateCommandBuffer | src/graphics/device.cpp:130-132 | One new reusable, non-recording buffer: the first of a one-element allocation. |
| Devices.Device.WaitIdle | src/graphics/device.cpp:150-158 | The wait repeats exactly while the fence wait times out, and stops after the first answer that is not a timeout. |
| CommandBuffers.CommandBuffer.constructor | src/graphics/command_buffer.cpp:12-15 | A wrapped buffer starts as Multiple and not recording. |
| CommandBuffers.CommandBuffer.Begin | src/graphics/command_buffer.cpp:22-25 | Recording starts; the type is unchanged. |
| CommandBuffers.CommandBuffer.BeginOneTime | src/graphics/command_buffer.cpp:27-33 | The type becomes OneTime and recording starts. |
| CommandBuffers.CommandBuffer.End | src/graphics/command_buffer.cpp:35-37 | Recording stops; the type is unchanged. |
| CommandBuffers.BeginEndCycle | src/graphics/command_buffer.cpp:22-37 | A begin/end cycle makes the type OneTime exactly when begun as one-time, and a OneTime buffer never goes back to Multiple. |
| Buffers.UsageFor | src/graphics/buffer.cpp:63-160 | Transfer source only for staging buffers; transfer destination exactly for vertex and index buffers; the vertex, index and uniform usage bits each for their own kind only. |
| Buffers.MemoryTypeFor | src/graphics/buffer.cpp:71-164 | Host-visible exactly for staging and uniform buffers. |
| Buffers.MappableKinds | src/graphics/buffer.cpp:30-35 | Vertex and index buffers can never satisfy map's host-visibility assertion; staging and uniform buffers can. |
| Buffers.Buffer.constructor | src/graphics/buffer.cpp:17-24 | Nothing created, size 0, not mapped. |
| Buffers.Buffer.Init | src/graphics/buffer.cpp:58-180 | The buffer is created with its kind's usage and exclusive sharing, and its size and class are recorded. Memory is allocated at the first qualifying type and bound; when no type qualifies the error is returned with nothing bound. |
| Buffers.Buffer.Map | src/graphics/buffer.cpp:30-35 | Allowed only for host memory; the whole allocation is mapped as a new region; nothing else changes. |
| Buffers.Buffer.Unmap | src/graphics/buffer.cpp:37-40 | The mapping pointer is cleared; nothing else changes. |
| Buffers.Buffer.GetMappedMemory | src/graphics/buffer.cpp:42-45 | Allowed only while mapped; it returns the mapped region. |
| Buffers.Buffer.UploadData | src/graphics/buffer.cpp:26-28 | The first buffer_size bytes of the region become the first buffer_size bytes of the data; the rest of the region is unchanged. |
| Buffers.UploadThenRead | src/graphics/buffer.cpp:26-45 | Reading the region back after an upload gives exactly the uploaded prefix. |
| Textures.CalculateMipmapLevelsAsWritten | src/graphics/texture.cpp:28-30 | floor(log2(max(w, h))): the exponent k with 2^k <= max < 2^(k+1). |
| Textures.CalculateMipmapLevels | src/graphics/texture.cpp:28-30 | The corrected count: at least 1, and equal to ImageData's mip count. |
| Textures.MipmapLevelsOneShort | src/graphics/texture.cpp:28-30 | As written the count is one less than ImageData::get_mip_levels for every size, and 0 for a 1x1 texture. |
| Textures.MipmapLevelsCoverChain | src/graphics/texture.cpp:28-30 | The corrected count is the length of the halving chain of the larger side. |
| Textures.Texture.constructor | src/graphics/texture.cpp:17-23 | No image, no memory and no view. |
| Textures.Texture.Init | src/graphics/texture.cpp:40-86 | The image is always created with one mip level. Host memory of the required size is allocated and bound at the allocator's first qualifying host memory type, whose filter bit is set, or the error is returned with no view. The view covers 1 level, or the as-written count when mipmaps are requested. |
| ImageIo.Pow2 | src/core/io/stb_wrapper.cpp:16 | Powers of two are positive. |
| ImageIo.Log2Floor | src/core/io/stb_wrapper.cpp:16 | floor(log2 n): the exponent k with 2^k <= n < 2^(k+1). |
| ImageIo.Log2FloorUnique | src/core/io/stb_wrapper.cpp:16 | Only one exponent satisfies that bracket, so Log2Floor is the floor of the logarithm. |
| ImageIo.Pow2Monotone | src/core/io/stb_wrapper.cpp:16 | Powers of two grow with the exponent. |
| ImageIo.MipLevels | src/core/io/stb_wrapper.cpp:15-17 | floor(log2(max(w, h))) + 1: at least 1, with 2^(levels-1) <= max < 2^levels. |
| ImageIo.HalvingChain | src/core/io/stb_wrapper.cpp:15-17 | The chain of mip sizes starts at n and ends at 1. |
| ImageIo.HalvingChainLength | src/core/io/stb_wrapper.cpp:15-17 | The halving chain from n has floor(log2 n) + 1 sizes. |
| ImageIo.MipLevelsCountsHalvingChain | src/core/io/stb_wrapper.cpp:15-17 | get_mip_levels counts exactly the sizes of the larger side's mip chain. |
| ImageIo.ByteSize | src/core/io/stb_wrapper.cpp:19-21 | width * height * 4, reduced to uint32_t: always a multiple of 4, and the exact product when it fits. |
| ImageIo.ImageData.constructor | include/tramogi/core/io/image_data.h:33-36 | No data, and width, height and channels all 0. |
| ImageIo.ImageData.GetMipLevels | src/core/io/stb_wrapper.cpp:15-17 | The mip count of the stored size. |
| ImageIo.ImageData.GetSize | src/core/io/stb_wrapper.cpp:19-21 | The byte size of the stored size. |
| ImageIo.ImageData.LoadFromFile | src/core/io/stb_wrapper.cpp:23-38 | True exactly when the loader succeeded; a failure changes no field; a success stores all four of the loader's outputs. |
| Models.VertexEquals | src/core/io/model.cpp:23-25 | Two vertices compare equal exactly when they are the same value. |
| Models.IndexOf | src/core/io/model.cpp:52-57 | The first position of a vertex in a list that contains it. |
| Models.UniqueSnoc | src/core/io/model.cpp:52-55 | A vertex seen before adds nothing to the distinct list; a new vertex is appended to it. |
| Models.DedupAllSnoc | src/core/io/model.cpp:37-59 | Consuming one more vertex is one more step of the loop body. |
| Models.UniqueProperties | src/core/io/model.cpp:52-55 | The distinct list has no repeats and contains exactly the vertices of the stream. |
| Models.DedupAddsUnique | src/core/io/model.cpp:52-55 | The vertices the loop appends are the stream's distinct vertices in first-occurrence order, and the map gives each one its own position, counted from the vertices already held. |
| Models.DedupStepIndicesName | src/core/io/model.cpp:52-57 | One loop step keeps every index pointing at the vertex it was appended for. |
| Models.DedupIndicesName | src/core/io/model.cpp:37-59 | There is one index per consumed vertex, and each index names that vertex among the appended ones. |
| Models.DedupAllProperties | src/core/io/model.cpp:36-59 | The combined guarantee of the loop: indices name their vertices, the appended vertices are distinct and in first-occurrence order, and the map holds each at base + i. |
| Models.IndicesReconstructStream | src/core/io/model.cpp:52-57 | vertices[indices[k]] is the k-th assembled vertex, counting the vertices held before the call. |
| Models.FlattenSnoc | src/core/io/model.cpp:37-38 | The shape-by-shape stream of one more shape is the old stream followed by that shape's vertices. |
| Models.Model.constructor | include/tramogi/core/model.h:29-30 | No vertices and no indices. |
| Models.Model.AddVertex | src/core/io/model.cpp:52-57 | One loop body: the vertex is appended only when the map does not know it yet, and its index is always appended. |
| Models.Model.LoadFromObjFile | src/core/io/model.cpp:27-62 | The loader's flag is returned unchanged; vertices and indices gain exactly the de-duplicated vertices and the index stream of the whole input, appended to what was there before. |
| Keyboards.Consumed | src/input/keyboard.cpp:12-17 | After consuming, a present key is false, an absent key stays absent, and every other entry is unchanged. |
| Keyboards.ConsumedIdempotent | src/input/keyboard.cpp:12-17 | Consuming twice is the same as consuming once. |
| Keyboards.Keyboard.constructor | include/tramogi/core/input/keyboard.h:79 | An empty table. |
| Keyboards.Keyboard.IsPressed | src/input/keyboard.cpp:5-10 | Pressed exactly when the key has an entry and that entry is true; a key never set is not pressed. |
| Keyboards.Keyboard.ConsumeKey | src/input/keyboard.cpp:12-17 | The table becomes Consumed of the old one and the key is no longer pressed. |
| Keyboards.Keyboard.SetKey | src/input/keyboard.cpp:19-21 | The scancode's entry becomes the given flag and reads back as it; every other key reads as before. |
| Keyboards.SetConsumeCycle | src/input/keyboard.cpp:5-21 | A key that was set reads as pressed, reads as released after consume_key, and another key keeps its reading. |
| Inputs.KeyIndex | src/core/input.cpp:7-16 | A slot exists exactly when 'A' <= key and key - 'A' < size; the slot is key - 'A'. |
| Inputs.KeyIndexInjective | src/core/input.cpp:12 | Two keys with a slot never share one. |
| Inputs.Input.constructor | src/core/input.cpp:1-52 | A table of the given size with every key released. |
| Inputs.Input.IsPressed | src/core/input.cpp:6-19 | Pressed exactly when the key has a slot and the slot is set; false below 'A' and past the end. |
| Inputs.Input.ConsumeKey | src/core/input.cpp:21-34 | Without a slot the table is unchanged; otherwise only that slot becomes false; either way the key then reads as released. |
| Inputs.Input.SetKey | src/core/input.cpp:36-50 | Without a slot the table is unchanged; otherwise only that slot becomes the given flag; the key then reads as the flag when it has a slot. |
| Inputs.SetThenRead | src/core/input.cpp:6-50 | After set_key, an in-range key reads the value set, and every other key reads as before. |
| Swapchain.FirstPreferred | src/main.cpp:583-593 | The first format that is B8G8R8A8Srgb with sRGB-nonlinear colour space, or the list length when there is none. |
| Swapchain.ChooseSwapSurfaceFormat | src/main.cpp:583-593 | One of the available formats: the preferred one exactly when it is available, otherwise the first. |
| Swapchain.ChoosePresentMode | src/main.cpp:595-604 | Mailbox exactly when it is available, otherwise Fifo. |
| Swapchain.Clamp | src/main.cpp:613-622 | std::clamp: inside [lo, hi] when lo <= hi, the value itself when inside, lo when below, hi when above. |
| Swapchain.ToU32 | src/main.cpp:613-622 | The conversion of the window's int size to uint32_t: modulo 2^32, and the identity on values that fit. |
| Swapchain.ChooseSwapExtent | src/main.cpp:606-625 | The current extent when its width is not UINT32_MAX. Otherwise each side is clamped into the surface's range: a window side, taken as uint32_t (a negative int wraps), above the maximum gives the maximum, one below the minimum gives the minimum, and a size already in range is kept as it is. |
| Swapchain.MinImageCountAsWritten | src/main.cpp:534-539 | As written: max(3, min) with no maximum or when min >= 3; but when min < 3 and there is a maximum, the maximum itself. |
| Swapchain.ComputeMinImageCount | src/main.cpp:534-539 | The statements compute MinImageCountAsWritten. |
| Swapchain.MinImageCount | src/main.cpp:534-539 | The corrected rule: max(3, min), capped at the maximum when there is one, and never below min. |
| Swapchain.MinImageCountAsWrittenTakesMaximum | src/main.cpp:536-539 | With 2 to 8 images allowed, the code asks for 8 where the corrected rule gives 3. |
| Swapchain.MinImageCountAgreesFromThree | src/main.cpp:534-539 | When min >= 3 and the range is consistent, the code and the corrected rule agree. |
| Swapchain.SharingFor | src/main.cpp:563-578 | Concurrent over [graphics, present] exactly when the two families differ; otherwise exclusive with no family list. |
| Swapchain.CreateSwapchainInfo | src/main.cpp:524-581 | The create info carries the chosen format, extent, as-written minimum image count, present mode and sharing. |
| Swapchain.HasStencilComponent | src/main.cpp:855-857 | The depth-only format has no stencil component. |
| Mipmaps.DstExtent | src/main.cpp:975-979 | The blit destination size is half the source size, and at least 1. |
| Mipmaps.MipLoop | src/main.cpp:954-1028 | Three commands per iteration for levels i to mipLevels-1. |
| Mipmaps.LastLevel | src/main.cpp:1030 | mip_levels - 1 as uint32_t: UINT32_MAX when the count is 0. |
| Mipmaps.GenerateMipmaps | src/main.cpp:927-1046 | The recorded commands are exactly MipmapCommandsAsWritten. |
| Mipmaps.MipLoopStep | src/main.cpp:954-1028 | Iteration k of the loop records Step at level i+k, with the extent halved k times. |
| Mipmaps.IterShift | src/main.cpp:1023-1028 | Halving once and then k times is halving k+1 times. |
| Mipmaps.MipmapCommandsLength | src/main.cpp:954-1043 | 3(n-1)+1 commands for n >= 1 levels, and 1 command for 0 levels. |
| Mipmaps.MipmapStep | src/main.cpp:955-1020 | Iteration s records: a barrier moving level s to TransferSrc, a blit from level s to level s+1 at half the extent, and a barrier moving level s to ShaderReadOnly. |
| Mipmaps.IterPositive | src/main.cpp:1023-1028 | From a positive size every level's size stays positive. |
| Mipmaps.BlitExtentsChain | src/main.cpp:966-1028 | Each blit writes exactly the extent the next blit reads, and every extent is at least 1. |
| Mipmaps.EachLevelReadableOnce | src/main.cpp:1008-1043 | Every level is moved into ShaderReadOnlyOptimal by exactly one command, at a known position. |
| Mipmaps.FinalBarrierMissesBlitWrite | src/main.cpp:1030-1043 | As written, the last level is written by the final blit, and its barrier then names TransferRead as source access. |
| Mipmaps.FinalBarrierCoversBlitWrite | src/main.cpp:1030-1043 | With the corrected barrier, the last level's barrier names TransferWrite, and every earlier command is the same as written. |
| Mipmaps.TransitionImageLayout | src/main.cpp:1330-1375 | Only Undefined to TransferDst and TransferDst to ShaderReadOnly are supported, each with its masks and stages over all levels; any other pair fails with "Unsupported layout transition". |
| Mipmaps.UploadTransitionsChain | src/main.cpp:1354-1367 | The second supported transition starts from the layout, access and stage where the first one ends. |
| Application.DrawFrameStep | src/main.cpp:1530-1599 | current_frame advances, modulo 2, exactly on the normal path to the end. Every successful acquire submits with the current frame. An out-of-date acquire (returned or thrown), or a thrown out-of-date present, recreates the swapchain and returns. A returned out-of-date or suboptimal present, or a resized window, recreates the swapchain and still advances current_frame. Other failures leave draw_frame with their message. |
| Application.RunRotation | src/main.cpp:1530-1599 | Over any sequence of draws, current_frame is the start plus the number of draws that advanced, modulo 2, and stays in [0, 2). |
| Application.RunSubmissionsInFlight | src/main.cpp:1530-1599 | Submissions are only ever appended, and each uses the sync objects of a frame in [0, 2). |
| Application.Renderer.constructor | src/main.cpp:163 | current_frame is 0; nothing resized, recreated or submitted. |
| Application.Renderer.RecreateSwapchain | src/main.cpp:1635-1654 | One more recreation; no frame field changes. |
| Application.Renderer.DrawFrame | src/main.cpp:1530-1599 | The statements produce exactly DrawFrameStep's new state and outcome, and keep current_frame in [0, 2). |
| Application.FindMemoryType | src/main.cpp:1318-1328 | The same first-match scan as the allocator's, failing with "Failed to find suitable memory type". |

## Left out

- Vulkan object creation and destruction, command recording other than the barriers and blits of `generate_mipmaps`, descriptor sets, pipelines, samplers, `copy_buffer` and `copy_buffer_to_image` are calls into the Vulkan API. The model keeps only the values the code chooses and the order of the mip commands.
- GLFW windowing, the surface and ImGui are not modelled. The window size and `resized` flag are inputs.
- The tinyobj and stb loaders, file I/O and the `1.0f - texcoord` flip are not modelled. The loaders' outputs are inputs: the assembled vertex stream, and an optional decoded image.
- Logging (`DLOG`, `debug_log`) produces output only and is dropped.
- Every driver answer is an input rather than a call: memory-type tables, queue families, surface support, format features, and the results of acquire, present and fence waits.
- Vertex coordinates are `real`. Float NaN and signed zero, and their effect on `==` and on hashing, are not modelled. The vertex hash function is not modelled; the unordered map is a Dafny `map`.
- Models.Model.LoadFromObjFile: the `uint32_t` conversion of `vertices.size()` is not modelled. An index past 2^32 would wrap in the source.
- Fence and semaphore semantics (signalling, waiting, GPU progress) are not modelled. Fences carry a signalled flag, and queue waits are counted.
- Devices.Device.WaitIdle: it requires that some answer in the sequence is not a timeout. The source would spin forever otherwise, and a model of that loop could not terminate.
- Devices.Device.CreateSyncObjects: vk::raii destruction of the previous objects is not modelled. New handles come from a counter.
- Buffers.Buffer.Unmap: it requires allocated memory, as the `unmapMemory` call does. It does not require a prior map, because the source does not check that.
- Buffers.Buffer.Map: the mapped region is a new array of the allocation size. The driver's pointer and any aliasing of the device memory are not modelled.
- Allocation failures that throw from the driver (out of memory) are not modelled. Only the memory-type search can fail.
- Swapchain.HasStencilComponent: the contract states only that the depth-only format has no stencil. The function body lists the two stencil formats.
- ImageIo.ImageData.GetMipLevels and Textures.Texture.Init: both require a non-zero size when a mip count is computed. For a 0x0 image the source converts log2(0), minus infinity, to uint32_t, which C++ leaves undefined.
- ImageIo.ByteSize: the `int` product `width * height * 4` is taken modulo 2^32. In C++ a signed overflow there is undefined; the model picks the usual wrap-around.
- `create_swapchain` also computes `image_count` (src/main.cpp:541-545) and never uses it, so it is not modelled.
- `transition_layout` in src/graphics/texture.cpp:32-38 has an empty body and no caller in the core, so it is not modelled.
- Texture upload through `Texture` is as written. The image has one mip level while the view may ask for more; the model records both as chosen and does not model Vulkan's validity rule for them.
- `draw_frame`'s command-buffer reset, command recording and uniform update are not modelled. Its submission is recorded by frame index only.
- `recreate_swapchain`'s wait for a non-zero window size is not modelled; it is counted as one recreation.
- The three `Impl` move constructors, destructors and getters only pass handles along and are not modelled.
- The contents of `include/tramogi/core/input.h` are not part of this model. The table length of `Input` is a constructor parameter, and every key starts released.

## Findings

| source | as written | input that shows it | evidently intended | confidence | as-written member | corrected member |
|---|---|---|---|---|---|---|
| src/graphics/physical_device.cpp:57-62 | `find_if` uses `std::strcmp(available, required)` as its predicate, which is true when the names DIFFER | available = ["VK_EXT_other"]: the swapchain extension counts as found; available = ["VK_KHR_swapchain"]: it counts as missing | find the name equal to the required one (`strcmp == 0`), as `check_extensions` in src/graphics/instance.cpp does | high, not executed | PhysicalDevices.FindIfDiffers, PhysicalDevices.AbsentExtensionIsFoundAsWritten | PhysicalDevices.FindIfEqual, PhysicalDevices.ExtensionsPresent |
| src/main.cpp:534-539 | when maxImageCount > 0 and max(3, min) > min, the count becomes maxImageCount | minImageCount = 2, maxImageCount = 8: the swapchain asks for 8 images | max(3, min), capped at maxImageCount | high, not executed | Swapchain.MinImageCountAsWritten, Swapchain.MinImageCountAsWrittenTakesMaximum | Swapchain.MinImageCount |
| src/graphics/texture.cpp:28-30 | `calculate_mipmap_levels` returns max(log2 w, log2 h) truncated, with no + 1 | 1x1 texture: 0 levels; 256x256: 8 levels where the chain has 9 | floor(log2(max(w, h))) + 1, as `ImageData::get_mip_levels` computes | high, not executed | Textures.CalculateMipmapLevelsAsWritten, Textures.MipmapLevelsOneShort | Textures.CalculateMipmapLevels |
| src/main.cpp:1030-1043 | the final barrier, on the last level just written by the last blit, sets srcAccessMask to eTransferRead | mip_levels = 2: level 1 is blit-written, then its barrier names TransferRead as source access | srcAccessMask = eTransferWrite, making the blit's write available before the shader reads | medium, not executed | Mipmaps.MipmapCommandsAsWritten, Mipmaps.FinalBarrierMissesBlitWrite | Mipmaps.MipmapCommands, Mipmaps.FinalBarrierCoversBlitWrite |

The operations themselves (`GetDeviceSuitableness`, `CreateSwapchainInfo`, `Texture.Init`, `GenerateMipmaps`) are modelled as the code is written. The corrected members stand beside them, with the intended property proved.
