# VulkanCompute set-up and frame tasks, modelled in Dafny

This project models the Vulkan set-up code and the two per-frame GPU tasks of VulkanCompute. The two tasks are a compute pass that writes a Mandelbrot texture into a storage image, and a graphics pass that renders into an off-screen colour attachment.

The model covers:

- **`ErrorCheck`** (`results.dfy`): the check every Vulkan call result goes through. It decodes the name that a debug build logs for a negative `VkResult`, and says whether the check aborts.
- **Memory helpers** (`memory.dfy`), from `Utils.cpp`:
  - the two memory-type searches: host-visible/host-coherent buffers and device-local images;
  - `AllocateHostCoherentMemory`;
  - `CreateImage`, which throws `std::runtime_error` when no device-local type fits.
- **`VulkanManager`** (`device.dfy`):
  - the choice of physical device (the first discrete GPU, else the last integrated GPU);
  - the queue-family search as written, and the corrected search `Init` uses;
  - the single queue create-info for two queues of that family;
  - the depth-format choice;
  - surface adoption;
  - `Init`, which chains these with the debug set-up of its `ValidationManager`.
- **`ValidationManager`** (`validation.dfy`):
  - the layer and extension lists;
  - the debug-messenger create-info;
  - `InitDebug`, which resolves the entry points;
  - the messenger callback's message prefix and object-type names.
- **`TextureCreatorComputeTask`** (`compute_task.dfy`) and **`GraphicsTask`** (`graphics_task.dfy`): command-pool and resource set-up, the command recording of each frame-in-flight slot, the queue submission, and the destruction order.

### Modelling conventions

**Foreign Vulkan objects.** They are plain numeric handles, with 0 as `VK_NULL_HANDLE`. Fresh handles are handed out consecutively (`Vk.HandleRange`).

**Calls into Vulkan.** They become records that the model appends to state:

- every `vkCmd*` call appends a `Vk.Command` to the recording of its slot;
- `vkQueueSubmit2` appends a `Vk.Submission` to the queue's log;
- every `vkDestroy*`/`vkFreeMemory` in a destructor appends a `Vk.Release`.

**Answers from the driver.** Enumerations, format properties, memory types, memory requirements and resolved entry points become parameters.

**Image layouts.** The layout of an image is tracked over a recording by `Vk.LayoutAfter`. `Vk.BarriersConsistent` says that each barrier names the layout the image is really in (or UNDEFINED).

**Failures.** The model follows a debug build (`_DEBUG`). A failing `assert`, an `std::exit(-1)`, a thrown `std::runtime_error` and a call through a null function pointer become a `Vk.Failure` inside a `Result` or `Outcome`. A method whose source runs past a failing check leaves the fields as the source leaves them.

**Flags.** Flag words are `bv32`. `VkFormat`, `VkResult` and `VkObjectType` are integers with the numeric values of the Vulkan headers.

### Frame synchronisation as the code does it

- **No graphics wait.** `GraphicsTask::Update` builds a wait on the timeline semaphore but never attaches it to the submission (src/GraphicsTask.cpp:289-290, 304, 307). So `GraphicsTask.GraphicsTask.Update` submits with no wait, and nothing orders the graphics work after the compute work of the same frame.
- **Graphics always submits.** `TextureCreatorComputeTask::Update` skips its submission when `m_alive` is cleared (src/TextureCreatorComputeTask.cpp:88). `GraphicsTask::Update` has that test commented out and always submits.
- **Not done by the modelled code.** None of the modelled files does any of the following:
  - derive per-stage timeline values from a per-slot frame counter;
  - map frame indices to slots;
  - acquire, copy to or present a swapchain image;
  - wait on the CPU for a slot's previous frame.

  The caller passes the slot, the semaphore and the values, and the model takes them as parameters.

## Model

| member | source | states |
|---|---|---|
| Results.ResultName | src/Utils.cpp:11-66 | the name logged for a result is the one listed for that code, and no name is logged exactly when the code is outside the list |
| Results.ErrorCheck | src/Utils.cpp:6-71 | the check aborts exactly when the build is a debug build and the result is negative, and it logs the listed name of that code |
| Results.NonNegativeResultsPass | src/Utils.cpp:9 | success and every positive status (such as `VK_SUBOPTIMAL_KHR`) pass the check in either build |
| Results.SuboptimalNeverLogged | src/Utils.cpp:9-66 | no result makes the check abort with the `VK_SUBOPTIMAL_KHR` text, although that case is listed in the switch |
| Results.LoggedNameIdentifiesCode | src/Utils.cpp:11-66 | a logged name determines the failing code: no two listed codes share a name |
| Memory.FirstFitting | src/Utils.cpp:97-115 | the index found is the lowest one that the requirement's type bits allow and whose flags pass the test; `None` means that no index passes |
| Memory.AllocationSize | src/Utils.cpp:120 | the allocation size is the larger of the buffer size and the required size |
| Memory.FindHostCoherentMemoryType | src/Utils.cpp:95-115 | the loop finds the first allowed type whose flags intersect HOST_VISIBLE \| HOST_COHERENT |
| Memory.AllocateHostCoherentMemory | src/Utils.cpp:89-128 | with the corrected flag test, the assertion fails exactly when no allowed type is both HOST_VISIBLE and HOST_COHERENT; otherwise the allocation uses the first such type and the larger of the buffer size and the required size |
| Memory.FindDeviceLocalMemoryType | src/Utils.cpp:197-216 | the lambda returns the first allowed DEVICE_LOCAL type, and throws "Couldn't find suitable memory." exactly when there is none |
| Memory.CreateImage | src/Utils.cpp:171-224 | the image is created as 2D, `width`×`height`×1, one mip level and layer, optimal tiling, initial layout UNDEFINED, one sample and exclusive sharing; its memory is the image's required size in the first device-local type; the exception is thrown exactly when no such type exists |
| Memory.DisallowedTypeNeverChosen | src/Utils.cpp:101-105 | a type whose bit is clear in `memoryTypeBits` is never chosen, whatever its flags |
| Memory.IntendedHostCoherentType | src/Utils.cpp:108-109 | the corrected search returns the first allowed type that has both HOST_VISIBLE and HOST_COHERENT |
| Memory.NonCoherentTypeAccepted | src/Utils.cpp:108-109 | with a first type that is HOST_VISIBLE \| HOST_CACHED and a second that is HOST_VISIBLE \| HOST_COHERENT, the search as written picks the non-coherent first type, while the intended search picks the second |
| Device.PreferredDevice | src/VulkanManager.cpp:156-186 | the device chosen is the first discrete GPU in enumeration order; otherwise it is the last integrated GPU; otherwise none, exactly when neither kind is present |
| Device.FamilyTestsReduceToGraphicsBit | src/VulkanManager.cpp:215-221 | as written, both family tests pass exactly when the graphics bit is set, and flipping the compute bit never changes the outcome |
| Device.IntendedQueueFamilyIndex | src/VulkanManager.cpp:211-234 | the corrected search returns the first family whose flags contain both GRAPHICS and COMPUTE, and `None` exactly when no family does |
| Device.GraphicsOnlyFamilyAccepted | src/VulkanManager.cpp:215-230 | on families [GRAPHICS, GRAPHICS\|COMPUTE] the search as written returns family 0, which cannot compute; the intended search returns family 1 |
| Device.BestDepthFormat | src/VulkanManager.cpp:243-261 | the format chosen is the first of D32_SFLOAT_S8_UINT, D24_UNORM_S8_UINT, D16_UNORM_S8_UINT, D32_SFLOAT, D16_UNORM whose optimal-tiling features include DEPTH_STENCIL_ATTACHMENT; `None` exactly when no candidate has it |
| Device.AdoptedSurfaceFormat | src/VulkanManager.cpp:340-350 | the adopted format is never UNDEFINED: it is the first reported format, or B8G8R8A8_UNORM/SRGB_NONLINEAR when that first format is UNDEFINED |
| Device.FindQueue | src/VulkanManager.cpp:74-93 | the result is one create-info for the given family that asks for two queues (one graphics, one compute), with flags 0 |
| Device.VulkanManager.constructor | src/VulkanManager.cpp:268-271 | the surface size is the screen size, no physical device or queue is chosen yet, and a fresh `ValidationManager` is created holding exactly what its constructor builds: the instance and device extension lists, the layers, the messenger create-info, no resolved entry points and no messenger |
| Device.VulkanManager.GetPhysicalDevice | src/VulkanManager.cpp:149-193 | the enumeration loop with its early exit chooses `PreferredDevice`; the program stops exactly when no device was chosen |
| Device.VulkanManager.GetQueuesFamilyIndex | src/VulkanManager.cpp:195-235 | the loop returns the first family that passes both tests as written, which is the first family with the graphics bit; the assertion fails exactly when no family has it |
| Device.VulkanManager.FindBestDepthFormat | src/VulkanManager.cpp:241-262 | the loop stores `BestDepthFormat` and returns; when no candidate qualifies, the field is unchanged and the assertion fails |
| Device.VulkanManager.CreateSurface | src/VulkanManager.cpp:303-353 | the call fails exactly when surface creation, presentation support or the format list is missing; the surface size is adopted only when the current extent's width is not 0xFFFFFFFF; on success the format is `AdoptedSurfaceFormat` |
| Device.VulkanManager.CreateLogicalDevice | src/VulkanManager.cpp:118-147 | the device is created with one create-info asking for two queues of the family, so queues 0 and 1 of that family are requested, and with every device extension of the `ValidationManager` |
| Device.VulkanManager.SetUpDeviceAndQueues | src/VulkanManager.cpp:278-285 | it passes exactly when the device has a family with graphics and compute and a depth-capable candidate format; on success, the family is the first with both (the corrected search), queue 0 is the graphics queue and queue 1 the compute queue of that family (both requested at device creation), and the depth format is `BestDepthFormat` |
| Device.VulkanManager.Init | src/VulkanManager.cpp:273-286 | the chosen device is `PreferredDevice`, and none is chosen when no discrete or integrated GPU is enumerated; `Init` passes exactly when such a device exists, the debug entry points resolve (or the build is a release build), and the device has a graphics+compute family and a depth-capable format; on success the queues, the depth format and the device extensions are those of `SetUpDeviceAndQueues`, and in a debug build the messenger was created; a failure is an assertion, or a null call exactly traced to a missing messenger entry point; the surface and the validation lists are unchanged |
| Device.DiscreteGraphicsComputeDeviceInitialises | src/VulkanManager.cpp:273-286 | a release build with one discrete GPU, one graphics+compute family and a depth-capable D32_SFLOAT_S8_UINT initialises |
| ComputeTask.ComputeFrameCommands | src/TextureCreatorComputeTask.cpp:94-143 | a slot's recording is reset, begun for one submission and ended last; its dispatch is 1 deep and has just enough 32×32 work groups to cover the image |
| ComputeTask.ComputeRecordingLayouts | src/TextureCreatorComputeTask.cpp:111-140 | from any previous layout the barriers are valid, the dispatch sees the image in GENERAL, the recording leaves it SHADER_READ_ONLY_OPTIMAL for sampling, and the slot's storage descriptor set is bound before the dispatch |
| ComputeTask.ComputeRecordingTouchesOnlyItsImage | src/TextureCreatorComputeTask.cpp:111-140 | a slot's recording leaves every other image's layout unchanged |
| ComputeTask.TextureCreatorComputeTask.constructor | src/TextureCreatorComputeTask.cpp:4-55 | the caller asks for at least one frame in flight, as the command-buffer allocation needs; one command pool and `maxFrameInFlights` distinct command buffers are created, and the caller's images, descriptor sets and size are stored |
| ComputeTask.TextureCreatorComputeTask.BuildCommandBuffers | src/TextureCreatorComputeTask.cpp:94-143 | only this slot's recording is replaced, and it becomes `ComputeFrameCommands` for the slot's image and set |
| ComputeTask.TextureCreatorComputeTask.Update | src/TextureCreatorComputeTask.cpp:65-92 | the slot is re-recorded; exactly one submission (the slot's buffer, no wait, a signal of the semaphore at `signalValue` after the compute stage) is appended when `alive` holds, and nothing is submitted otherwise |
| ComputeTask.TextureCreatorComputeTask.Destroy | src/TextureCreatorComputeTask.cpp:57-63 | the pool, shader module, pipeline layout and pipeline are released, in that order |
| GraphicsTask.GraphicsFrameCommands | src/GraphicsTask.cpp:205-279 | the recording is reset, begun for one submission and ended last; it holds a barrier exactly when `changeImageLayout` is set, and that barrier returns the slot's image from TRANSFER_SRC to COLOR_ATTACHMENT_OPTIMAL; rendering clears the slot's view in COLOR_ATTACHMENT_OPTIMAL over the full screen, with the viewport and scissor set before it ends |
| GraphicsTask.GraphicsRecordingLayouts | src/GraphicsTask.cpp:230-276 | when the image starts in COLOR_ATTACHMENT_OPTIMAL (first frames), or in TRANSFER_SRC with the barrier, every barrier is valid, rendering sees the layout it declares, and the image ends COLOR_ATTACHMENT_OPTIMAL |
| GraphicsTask.AttachmentReleases | src/GraphicsTask.cpp:197-202 | the loop releases three handles per attachment and never the pool |
| GraphicsTask.AttachmentReleasesCover | src/GraphicsTask.cpp:197-202 | for attachment `i`, position 3i destroys its view, 3i+1 frees its memory and 3i+2 destroys its image |
| GraphicsTask.GraphicsTask.constructor | src/GraphicsTask.cpp:5-58 | the caller asks for at least one frame in flight, as the command-buffer allocation needs; for each slot the constructor creates a B8G8R8A8_UNORM screen-sized image (COLOR_ATTACHMENT \| TRANSFER_SRC) with a view of it, bound to its own fresh memory (no two attachments share one) of the first memory type that fits the image and is device-local; it throws exactly when no device-local type fits; it requests one transition of all attachments from UNDEFINED to COLOR_ATTACHMENT_OPTIMAL |
| GraphicsTask.GraphicsTask.BuildCommandBuffers | src/GraphicsTask.cpp:205-279 | only this slot's recording is replaced, and it becomes `GraphicsFrameCommands` for the slot's image and view |
| GraphicsTask.GraphicsTask.Update | src/GraphicsTask.cpp:281-314 | the slot is re-recorded with the restoring barrier exactly when `frameIndex > 1`; one submission is always appended (the slot's buffer, no wait, a signal at `signalValue` after colour-attachment output) |
| GraphicsTask.GraphicsTask.Destroy | src/GraphicsTask.cpp:189-203 | the pool is released first, then for each attachment its view, memory and image |
| Validation.DebugAnnotObjectToString | src/ValidationManager.cpp:8-81 | every listed object type gets its own Vulkan type name |
| Validation.UnknownNameOnlyForUnlistedTypes | src/ValidationManager.cpp:78-79 | "Unknown Type" is returned exactly for the object types that are not listed |
| Validation.ObjectTypeNameIdentifiesType | src/ValidationManager.cpp:10-77 | a name other than "Unknown Type" determines the object type: no two listed types share a name |
| Validation.SeverityLabel | src/ValidationManager.cpp:94-105 | a severity word gets a label exactly when it has one of the four known severity bits |
| Validation.SeverityLabelFirstMatch | src/ValidationManager.cpp:94-105 | the label is that of the first set bit in the order VERBOSE, INFO, WARNING, ERROR |
| Validation.TypeLabel | src/ValidationManager.cpp:106-120 | the type label is "GENERAL" exactly when the GENERAL bit is set, "PERF" exactly when only PERFORMANCE of the two is set, and empty otherwise |
| Validation.DebugMessengerCallback | src/ValidationManager.cpp:84-166 | the callback never asks to abort the call; its prefix is the severity label followed by the type label; each reported object is named by `DebugAnnotObjectToString` |
| Validation.DebugFilterLabelsEveryMessage | src/ValidationManager.cpp:212-214 | every message that the messenger's WARNING \| ERROR filter lets through gets a severity label, and one without VERBOSE or INFO is labelled WARNING or ERROR |
| Validation.ValidationManager.constructor | src/ValidationManager.cpp:188-192 | the instance extensions are SURFACE and GET_PHYSICAL_DEVICE_PROPERTIES_2, then the platform's, then (in a debug build) DEBUG_UTILS; the device extensions are SWAPCHAIN, DYNAMIC_RENDERING and TIMELINE_SEMAPHORE; a debug build adds the Khronos validation layer and the WARNING \| ERROR messenger create-info |
| Validation.ValidationManager.AddRequiredPlatformInstanceExtensions | src/ValidationManager.cpp:171-186 | the platform's instance extensions are appended in order |
| Validation.ValidationManager.SetupLayersAndExtensions | src/ValidationManager.cpp:272-281 | SURFACE and GET_PHYSICAL_DEVICE_PROPERTIES_2, then the platform's extensions, are appended to the instance list; SWAPCHAIN, DYNAMIC_RENDERING and TIMELINE_SEMAPHORE are appended to the device list |
| Validation.ValidationManager.SetupDebug | src/ValidationManager.cpp:202-221 | a debug build appends the validation layer and the DEBUG_UTILS extension and fills the messenger create-info; a release build changes nothing |
| Validation.ValidationManager.InitDebug | src/ValidationManager.cpp:228-263 | a release build does nothing; a debug build calls through a null pointer when messenger creation does not resolve, and otherwise creates the messenger and fails its assertion exactly when one of the four label or object-name entry points does not resolve |

## Left out

- Floating point is not modelled:
  - the viewport and its 1:1 aspect fix;
  - clear colours and queue priorities;
  - the `cosf` push-constant value.
- The dispatch size `ceil(w / 32.0f)` is modelled as the exact ceiling (`Vk.CeilDiv`). That equals the float computation for sizes a `float` holds exactly, below 2^24.
- Text output is not modelled. This covers the `printf`/`sprintf` message of the messenger callback (message id, message text, object handles and names, command-buffer labels with their colours), the `std::cout` output of `ErrorCheck`, and the callback's `malloc`/`free`.
- The callback's prefix buffer is left uninitialised by the source when no known severity bit is set. The model returns `None` for that case.
- The release build is not modelled beyond the places where the source chooses by `_DEBUG`. Assertions are compiled out there, so a search that finds nothing returns an uninitialised index.
- Results of foreign calls that are only passed to `ErrorCheck` are taken to be success. `ErrorCheck` is modelled once on its own (`Results.ErrorCheck`).
- The concurrency of `m_alive` (an atomic flag set by another thread) is not modelled. Its value is a constructor parameter and a field.
- Vulkan calls whose bodies are outside this code are represented only by what the code passes to them:
  - instance creation (`CreateInstance`);
  - the feature chain that `CreateLogicalDevice` queries and passes (dynamic rendering and synchronization2), and the call to `vkCreateDevice` itself;
  - `DeInit` and `DeinitDebug`;
  - `vkGetDeviceQueue` (a queue is its family and index).
- `ChangeImageLayout`, called by the `GraphicsTask` constructor, is not part of this model. The constructor records what it asks for as a `LayoutRequest`.
- `CreateShaderModule` is a stub that returns a value-initialised tuple, and `CreateBufferAndMemory` and `CopyDataIntoHostCoherentMemory` are stubs. So the compute task's shader module is the null handle, and pipeline creation is represented by two fresh handles.
- `AllocateCommandBuffer`, `FreeCommandBuffer`, `FreeMemory`, `DestroyBuffer`, `DestroyImage`, `DestroyImageView`, `DestroyShaderModule`, `CopyBufferToImage` and `CreateImageView` are one-call wrappers around a foreign function and are not modelled separately. `ChangeImageLayoutWithBarriers` becomes the `Vk.ImageBarrier` command.
- `GetMaxUsableVKSampleCount` has an empty body. `VulkanManager::Update` has an empty body, and `GetColorAttachments` is an accessor; none of them is modelled.
- The `GraphicsTask` pipeline, shader and descriptor code is commented out in the source and is not modelled.
- The constructor's `colorInfoList` and rendering set-up is not modelled, because nothing outside the constructor uses it.
- `WindowManager`, `main` and the GLFW window are not part of this model. Their answers are parameters: surface creation, presentation support, surface capabilities and formats, and the platform's instance extensions.
- `const&` parameters that alias caller storage are modelled as values.
- The choice of slots, semaphore values, swapchain presentation and CPU-side waits belong to the caller and are not modelled. None of the modelled files does them (see the introduction).
- Device.VulkanManager.constructor: fields the source leaves uninitialised start at chosen values here: `m_queueFamilyIndex` at 0, `m_depthFormat` at UNDEFINED and `m_surfaceFormat` at UNDEFINED/SRGB_NONLINEAR (`Device.VulkanManager.constructor`). So when `FindBestDepthFormat` fails, "left unchanged" means an indeterminate value in the source, not UNDEFINED.
- Device.VulkanManager.SetUpDeviceAndQueues: chooses the queue family with the corrected `Device.IntendedQueueFamilyIndex`, where the source calls the as-written `GetQueuesFamilyIndex`. On a device whose only family has GRAPHICS but not COMPUTE, the source creates the device and fetches queues 0 and 1 of family 0; the model fails the assertion instead. The difference is recorded under Findings.
- Device.VulkanManager.Init: chooses the queue family with the corrected `Device.IntendedQueueFamilyIndex`, not with the test as written. The as-written search is `Device.VulkanManager.GetQueuesFamilyIndex`, and the difference is recorded under Findings.
- Memory.AllocateHostCoherentMemory: chooses the memory type with the corrected `Memory.IntendedHostCoherentType`, not with the intersection test as written. The as-written search is `Memory.FindHostCoherentMemoryType`, and the difference is recorded under Findings.

## Findings

| source | as written | input that shows it | evidently intended | confidence | as-written member | corrected member |
|---|---|---|---|---|---|---|
| src/VulkanManager.cpp:215-221 | `queueFlags & graphicsReq == graphicsReq` parses as `queueFlags & (graphicsReq == graphicsReq)`, which is `queueFlags & 1`; the compute test is the same, so both test only the graphics bit | families [GRAPHICS, GRAPHICS\|COMPUTE]: family 0 is returned and then serves as the compute queue, although it cannot compute | `(queueFlags & req) == req` for both requirements: the first family with GRAPHICS and COMPUTE | not executed | Device.GraphicsOnlyFamilyAccepted | Device.IntendedQueueFamilyIndex |
| src/Utils.cpp:108-109 | the type is accepted when its flags intersect HOST_VISIBLE \| HOST_COHERENT | types [HOST_VISIBLE\|HOST_CACHED, HOST_VISIBLE\|HOST_COHERENT] with both allowed: type 0 is chosen, which is not coherent, although the function promises host-coherent memory | the flags contain both HOST_VISIBLE and HOST_COHERENT | not executed | Memory.NonCoherentTypeAccepted | Memory.IntendedHostCoherentType |
