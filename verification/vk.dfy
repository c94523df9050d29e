/** Values shared by the model of the renderer's Vulkan set-up and per-frame task code.
    Foreign Vulkan objects are represented by plain numeric handles; the effect of a
    `vkCmd*` call is one `Command` record appended to the log of a command buffer, and
    the effect of `vkQueueSubmit2` is one `Submission` record appended to a queue's log. */
module Vk {

  datatype Option<+T> = None | Some(value: T)

  /** How a failing operation ends the program. */
  datatype Failure =
    | AssertionFailed               // `assert(0)` or a failing `assert(cond)` in a debug build
    | ProcessExit                   // `std::exit(-1)`
    | RuntimeError(message: string) // a thrown `std::runtime_error`
    | NullFunctionCall              // a call through a null function pointer

  datatype Result<+T> = Ok(value: T) | Err(failure: Failure)

  /** The end of an operation that produces no value. */
  datatype Outcome = Pass | Fail(failure: Failure)

  /** A 32-bit unsigned integer (`uint32_t`). */
  type Uint32 = x: int | 0 <= x < 0x1_0000_0000

  /** The largest 32-bit unsigned value (`UINT32_MAX`). */
  const Uint32Max: int := 0xFFFF_FFFF

  /** `VkFormat` values used by the code (numeric values of the Vulkan headers). */
  const FormatUndefined: int := 0
  const FormatB8G8R8A8Unorm: int := 44
  const FormatD16Unorm: int := 124
  const FormatD32Sfloat: int := 126
  const FormatD16UnormS8Uint: int := 128
  const FormatD24UnormS8Uint: int := 129
  const FormatD32SfloatS8Uint: int := 130

  /** `VK_COLOR_SPACE_SRGB_NONLINEAR_KHR`. */
  const ColorSpaceSrgbNonlinear: int := 0

  /** `VkImageUsageFlagBits` used by the code. */
  const ImageUsageTransferSrc: bv32 := 0x1
  const ImageUsageColorAttachment: bv32 := 0x10

  datatype ImageLayout =
    | LayoutUndefined
    | LayoutGeneral
    | LayoutColorAttachmentOptimal
    | LayoutShaderReadOnlyOptimal
    | LayoutTransferSrcOptimal

  datatype PipelineStage =
    | StageTopOfPipe
    | StageVertexInput
    | StageComputeShader
    | StageColorAttachmentOutput
    | StageTransfer
    | StageBottomOfPipe

  datatype Access = AccessNone | AccessShaderWrite | AccessTransferWrite

  datatype BindPoint = BindCompute | BindGraphics

  /** One recorded call on a command buffer. */
  datatype Command =
    | ResetCommandBuffer
    | BeginCommandBuffer(oneTimeSubmit: bool)
    | ImageBarrier(image: nat, srcStage: PipelineStage, dstStage: PipelineStage,
                   srcAccess: Access, dstAccess: Access,
                   oldLayout: ImageLayout, newLayout: ImageLayout)
    | BindDescriptorSet(bindPoint: BindPoint, descriptorSet: nat)
    | BindPipeline(bindPoint: BindPoint)
    | PushConstants(size: nat)
    | Dispatch(groupsX: nat, groupsY: nat, groupsZ: nat)
    | BeginRendering(view: nat, layout: ImageLayout, clearOnLoad: bool, width: nat, height: nat)
    | SetViewport
    | SetScissor(width: nat, height: nat)
    | EndRendering
    | EndCommandBuffer

  /** One `vkDestroy*` / `vkFreeMemory` call, naming the handle it releases. */
  datatype Release =
    | DestroyCommandPool(pool: nat)
    | DestroyShaderModule(shaderModule: nat)
    | DestroyPipelineLayout(layout: nat)
    | DestroyPipeline(pipeline: nat)
    | DestroyImageView(view: nat)
    | FreeMemory(memory: nat)
    | DestroyImage(image: nat)

  /** The layout `image` is in after `cmd` executes, when it was in `layout` before. */
  function LayoutStep(cmd: Command, image: nat, layout: ImageLayout): ImageLayout
  {
    if cmd.ImageBarrier? && cmd.image == image then cmd.newLayout else layout
  }

  /** The layout `image` is in after `cmds` execute, starting from `initial`. */
  function LayoutAfter(cmds: seq<Command>, image: nat, initial: ImageLayout): ImageLayout
  {
    if cmds == [] then initial
    else LayoutAfter(cmds[1..], image, LayoutStep(cmds[0], image, initial))
  }

  /** Every barrier on `image` in `cmds` names, as its old layout, the layout the image is
      actually in at that point, or UNDEFINED (which discards the contents and is valid from
      any layout). */
  predicate BarriersConsistent(cmds: seq<Command>, image: nat, initial: ImageLayout)
  {
    cmds == [] ||
    ((cmds[0].ImageBarrier? && cmds[0].image == image ==>
        cmds[0].oldLayout == initial || cmds[0].oldLayout == LayoutUndefined)
     && BarriersConsistent(cmds[1..], image, LayoutStep(cmds[0], image, initial)))
  }

  /** Layouts compose over concatenated recordings, and so does barrier consistency. */
  lemma {:induction false} LayoutAfterAppend(a: seq<Command>, b: seq<Command>, image: nat, initial: ImageLayout)
    ensures LayoutAfter(a + b, image, initial) == LayoutAfter(b, image, LayoutAfter(a, image, initial))
    ensures BarriersConsistent(a, image, initial) && BarriersConsistent(b, image, LayoutAfter(a, image, initial))
            ==> BarriersConsistent(a + b, image, initial)
    decreases |a|
  {
    if a == [] {
      assert a + b == b;
    } else {
      assert (a + b)[0] == a[0];
      assert (a + b)[1..] == a[1..] + b;
      LayoutAfterAppend(a[1..], b, image, LayoutStep(a[0], image, initial));
    }
  }

  /** A recording with no barrier on `image` leaves its layout alone and is consistent for
      it from any layout. */
  lemma {:induction false} NoBarrierKeepsLayout(cmds: seq<Command>, image: nat, initial: ImageLayout)
    requires forall k :: 0 <= k < |cmds| ==> !(cmds[k].ImageBarrier? && cmds[k].image == image)
    ensures LayoutAfter(cmds, image, initial) == initial
    ensures BarriersConsistent(cmds, image, initial)
    decreases |cmds|
  {
    if cmds != [] {
      assert !(cmds[0].ImageBarrier? && cmds[0].image == image);
      NoBarrierKeepsLayout(cmds[1..], image, initial);
    }
  }

  /** A one-command recording moves the layout by that command alone. A corollary of
      `LayoutAfter`'s contract, kept as the base case the recording lemmas start from. */
  lemma SingleCommandLayout(cmd: Command, image: nat, initial: ImageLayout)
    ensures LayoutAfter([cmd], image, initial) == LayoutStep(cmd, image, initial)
    ensures BarriersConsistent([cmd], image, initial)
            <==> (cmd.ImageBarrier? && cmd.image == image ==>
                    cmd.oldLayout == initial || cmd.oldLayout == LayoutUndefined)
  {
    assert [cmd][1..] == [];
  }

  /** The recording shape every task uses: the buffer is reset, begun for one submission,
      and ended last, with no other reset, begin or end in between. */
  predicate SingleRecording(cmds: seq<Command>)
  {
    |cmds| >= 3 && cmds[0] == ResetCommandBuffer && cmds[1] == BeginCommandBuffer(true)
    && cmds[|cmds| - 1] == EndCommandBuffer
    && forall k :: 2 <= k < |cmds| - 1 ==>
         !cmds[k].ResetCommandBuffer? && !cmds[k].BeginCommandBuffer? && !cmds[k].EndCommandBuffer?
  }

  /** A `VkSemaphoreSubmitInfo`: a semaphore, the value to wait for or signal, and the stage. */
  datatype SemaphoreSubmit = SemaphoreSubmit(semaphore: nat, value: nat, stage: PipelineStage)

  /** A `VkSubmitInfo2` as handed to `vkQueueSubmit2`. */
  datatype Submission = Submission(commandBuffers: seq<nat>,
                                   waits: seq<SemaphoreSubmit>,
                                   signals: seq<SemaphoreSubmit>)

  /** True when the numeric handles of `s` are pairwise distinct. */
  predicate Distinct(s: seq<nat>)
  {
    forall i, j :: 0 <= i < j < |s| ==> s[i] != s[j]
  }

  /** `count` consecutive handles starting at `start`, as a driver hands out fresh ones. */
  function HandleRange(start: nat, count: nat): (r: seq<nat>)
    ensures |r| == count && Distinct(r)
    ensures forall k :: 0 <= k < count ==> r[k] == start + k
  {
    seq(count, k => start + k)
  }

  /** Ceiling of `n / d`, as the code computes it with `ceil(n / (float)d)` for values
      that a `float` represents exactly. */
  function CeilDiv(n: nat, d: nat): (q: nat)
    requires d > 0
    ensures q * d >= n
    ensures q == 0 || (q - 1) * d < n
  {
    (n + d - 1) / d
  }

  /** The index of the first element of `s` that satisfies `p`, if any. */
  function FirstIndex<T>(s: seq<T>, p: T -> bool): (r: Option<nat>)
    ensures r.Some? ==> r.value < |s| && p(s[r.value])
    ensures r.Some? ==> forall j :: 0 <= j < r.value ==> !p(s[j])
    ensures r.None? ==> forall j :: 0 <= j < |s| ==> !p(s[j])
  {
    if s == [] then None
    else if p(s[0]) then Some(0)
    else match FirstIndex(s[1..], p)
      case None => None
      case Some(i) => Some(i + 1)
  }

  /** The index of the last element of `s` that satisfies `p`, if any. */
  function LastIndex<T>(s: seq<T>, p: T -> bool): (r: Option<nat>)
    ensures r.Some? ==> r.value < |s| && p(s[r.value])
    ensures r.Some? ==> forall j :: r.value < j < |s| ==> !p(s[j])
    ensures r.None? ==> forall j :: 0 <= j < |s| ==> !p(s[j])
  {
    if s == [] then None
    else if p(s[|s| - 1]) then Some(|s| - 1)
    else LastIndex(s[..|s| - 1], p)
  }
}
