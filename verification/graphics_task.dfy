/** `GraphicsTask` (GraphicsTask.cpp): the graphics stage that owns one colour attachment per
    frame-in-flight slot, clears it with dynamic rendering each frame, and signals a
    timeline semaphore. Handles are numbered as the model creates them (0 is the null
    handle); `vkCmd*` calls become `Command` records and `vkQueueSubmit2` a `Submission`. */
module GraphicsTask {
  import opened Vk
  import opened Memory

  /** Format of every colour attachment. */
  const AttachmentFormat: int := FormatB8G8R8A8Unorm

  /** Usage of every colour attachment: rendered to, then copied from. */
  const AttachmentUsage: bv32 := ImageUsageColorAttachment | ImageUsageTransferSrc

  /** The `VkImageViewCreateInfo` fields that vary: the image viewed and its format (the
      view is always 2D, identity-swizzled, colour aspect, one level and one layer). */
  datatype ViewCreateInfo = ViewCreateInfo(image: nat, format: int)

  /** One call of `ChangeImageLayout(device, images, queue, family, oldLayout, newLayout)`;
      its body is not part of this model. */
  datatype LayoutRequest = LayoutRequest(images: seq<nat>, oldLayout: ImageLayout, newLayout: ImageLayout)

  /** The create-info every attachment is made with. */
  function AttachmentImageInfo(width: nat, height: nat): ImageCreateInfo
  {
    ImageCreateInfo(Image2D, width, height, 1, 1, 1, AttachmentFormat, TilingOptimal,
                    LayoutUndefined, AttachmentUsage, 1, SharingExclusive)
  }

  /** The barrier that hands an attachment back from the transfer (copy-out) to rendering. */
  function RestoringBarrier(image: nat): Command
  {
    ImageBarrier(image, StageTransfer, StageTopOfPipe, AccessTransferWrite, AccessNone,
                 LayoutTransferSrcOptimal, LayoutColorAttachmentOptimal)
  }

  /** What `BuildCommandBuffers(frameInFlight, changeImageLayout)` records, given the slot's
      attachment image and view. */
  function GraphicsFrameCommands(image: nat, view: nat, width: nat, height: nat, changeImageLayout: bool)
    : (cmds: seq<Command>)
    ensures SingleRecording(cmds)
    ensures changeImageLayout <==> exists k :: 0 <= k < |cmds| && cmds[k].ImageBarrier?
    ensures forall k :: 0 <= k < |cmds| && cmds[k].ImageBarrier? ==> cmds[k] == RestoringBarrier(image)
    ensures forall k :: 0 <= k < |cmds| && cmds[k].BeginRendering? ==>
              cmds[k] == BeginRendering(view, LayoutColorAttachmentOptimal, true, width, height)
              && cmds[k + 1] == SetViewport && cmds[k + 2] == SetScissor(width, height)
              && cmds[k + 3] == EndRendering
  {
    var cmds := [ResetCommandBuffer, BeginCommandBuffer(true)]
                + (if changeImageLayout then [RestoringBarrier(image)] else [])
                + [ BeginRendering(view, LayoutColorAttachmentOptimal, true, width, height),
                    SetViewport,
                    SetScissor(width, height),
                    EndRendering,
                    EndCommandBuffer ];
    assert changeImageLayout ==> cmds[2].ImageBarrier?;
    cmds
  }

  /** The layout the attachment is rendered in agrees with the layout `BeginRendering`
      declares: with the restoring barrier the attachment may enter in TRANSFER_SRC_OPTIMAL,
      without it it must already be in COLOR_ATTACHMENT_OPTIMAL, and either way it leaves in
      COLOR_ATTACHMENT_OPTIMAL. */
  lemma GraphicsRecordingLayouts(image: nat, view: nat, width: nat, height: nat, changeImageLayout: bool)
    ensures var cmds := GraphicsFrameCommands(image, view, width, height, changeImageLayout);
            var initial := if changeImageLayout then LayoutTransferSrcOptimal else LayoutColorAttachmentOptimal;
            var r := if changeImageLayout then 3 else 2;
            && BarriersConsistent(cmds, image, initial)
            && cmds[r].BeginRendering?
            && LayoutAfter(cmds[..r], image, initial) == cmds[r].layout
            && LayoutAfter(cmds, image, initial) == LayoutColorAttachmentOptimal
  {
    var cmds := GraphicsFrameCommands(image, view, width, height, changeImageLayout);
    var initial := if changeImageLayout then LayoutTransferSrcOptimal else LayoutColorAttachmentOptimal;
    var r := if changeImageLayout then 3 else 2;
    var begin := cmds[..2];
    NoBarrierKeepsLayout(begin, image, initial);
    NoBarrierKeepsLayout(cmds[r..], image, LayoutColorAttachmentOptimal);
    if changeImageLayout {
      assert cmds[..r] == begin + [cmds[2]];
      SingleCommandLayout(cmds[2], image, initial);
      LayoutAfterAppend(begin, [cmds[2]], image, initial);
    } else {
      assert cmds[..r] == begin;
    }
    assert cmds == cmds[..r] + cmds[r..];
    LayoutAfterAppend(cmds[..r], cmds[r..], image, initial);
  }

  /** The releases the destructor's loop issues for the first `n` attachments: view, memory,
      image, attachment by attachment. */
  function AttachmentReleases(views: seq<nat>, memories: seq<nat>, images: seq<nat>, n: nat): (r: seq<Release>)
    requires n <= |views| && n <= |memories| && n <= |images|
    ensures |r| == 3 * n
    ensures forall k :: 0 <= k < |r| ==> !r[k].DestroyCommandPool?
  {
    if n == 0 then []
    else AttachmentReleases(views, memories, images, n - 1)
         + [DestroyImageView(views[n - 1]), FreeMemory(memories[n - 1]), DestroyImage(images[n - 1])]
  }

  /** Attachment `i`'s view, memory and image are released, in that order, at positions
      `3i`, `3i + 1` and `3i + 2`. */
  lemma {:induction false} AttachmentReleasesCover(views: seq<nat>, memories: seq<nat>, images: seq<nat>,
                                                   n: nat, i: nat)
    requires n <= |views| && n <= |memories| && n <= |images|
    requires i < n
    ensures var r := AttachmentReleases(views, memories, images, n);
            && r[3 * i] == DestroyImageView(views[i])
            && r[3 * i + 1] == FreeMemory(memories[i])
            && r[3 * i + 2] == DestroyImage(images[i])
    decreases n
  {
    if i < n - 1 {
      AttachmentReleasesCover(views, memories, images, n - 1, i);
    }
  }

  class GraphicsTask {
    var commandPool: nat
    /** One primary command buffer per frame-in-flight slot. */
    var commandBuffers: seq<nat>
    /** Per slot: the colour attachment, its memory and its view. */
    var colorAttachments: seq<nat>
    var colorAttachmentMemory: seq<nat>
    var colorAttachmentViews: seq<nat>
    /** Per slot: how the attachment and its memory were requested, and how its view. */
    var attachmentInfos: seq<ImageWithMemory>
    var viewInfos: seq<ViewCreateInfo>
    /** The `ChangeImageLayout` calls made. */
    var layoutRequests: seq<LayoutRequest>
    var screenWidth: nat
    var screenHeight: nat
    var maxFrameInFlights: nat
    /** `Fail` when the constructor threw. */
    var status: Outcome
    /** The calls recorded into each slot's command buffer since (and including) its
        latest reset. */
    var recorded: seq<seq<Command>>
    /** What was submitted to the graphics queue, in order. */
    var submissions: seq<Submission>
    /** What the destructor released, in order. */
    var releases: seq<Release>

    /** A constructed task: every per-slot array has one entry per slot, the entries at the
        same index belong together (view `i` views attachment `i`, memory `i` is bound to
        attachment `i` and freed with it), and no two slots share a command buffer, an
        attachment, a memory allocation or a view. */
    predicate Valid()
      reads this
    {
      && status == Pass
      && |commandBuffers| == maxFrameInFlights && |recorded| == maxFrameInFlights
      && |colorAttachments| == maxFrameInFlights && |colorAttachmentMemory| == maxFrameInFlights
      && |colorAttachmentViews| == maxFrameInFlights
      && |attachmentInfos| == maxFrameInFlights && |viewInfos| == maxFrameInFlights
      && (forall i :: 0 <= i < maxFrameInFlights ==> viewInfos[i].image == colorAttachments[i])
      && Distinct(commandBuffers) && Distinct(colorAttachments) && Distinct(colorAttachmentMemory)
      && Distinct(colorAttachmentViews)
    }

    /** The constructor: a command pool for `queueFamilyIndex`, `maxFrameInFlight` command
        buffers, then for each slot an attachment made by `CreateImage` (screen-sized,
        B8G8R8A8_UNORM, colour attachment and transfer source) and a view of it, and
        finally one request to move all attachments from UNDEFINED to
        COLOR_ATTACHMENT_OPTIMAL. `requirements` and `memoryTypes` are what the driver
        reports for such an image; when no device-local type fits, `CreateImage` throws and
        so does the constructor. */
    constructor (queueFamilyIndex: nat, maxFrameInFlight: nat, screenWidth: nat, screenHeight: nat,
                 requirements: MemoryRequirements, memoryTypes: MemoryTypeFlags)
      requires maxFrameInFlight > 0
      ensures status.Fail? <==> FirstFitting(requirements.memoryTypeBits, memoryTypes, IsDeviceLocal, 0).None?
      ensures status.Fail? ==> status.failure == RuntimeError("Couldn't find suitable memory.")
      ensures status == Pass ==> Valid() && maxFrameInFlights == maxFrameInFlight
      ensures status == Pass ==> forall i :: 0 <= i < maxFrameInFlight ==>
                && attachmentInfos[i].image == AttachmentImageInfo(screenWidth, screenHeight)
                && attachmentInfos[i].memory.allocationSize == requirements.size
                && Some(attachmentInfos[i].memory.memoryTypeIndex)
                   == FirstFitting(requirements.memoryTypeBits, memoryTypes, IsDeviceLocal, 0)
                && memoryTypes[attachmentInfos[i].memory.memoryTypeIndex] & MemoryPropertyDeviceLocal != 0
                && viewInfos[i] == ViewCreateInfo(colorAttachments[i], AttachmentFormat)
      ensures status == Pass ==>
                layoutRequests == [LayoutRequest(colorAttachments, LayoutUndefined, LayoutColorAttachmentOptimal)]
      ensures this.screenWidth == screenWidth && this.screenHeight == screenHeight
      ensures forall k :: 0 <= k < |recorded| ==> recorded[k] == []
      ensures submissions == [] && releases == []
    {
      var first := 2 + maxFrameInFlight;
      var images: seq<nat> := [];
      var memories: seq<nat> := [];
      var views: seq<nat> := seq(maxFrameInFlight, k => 0);
      var infos: seq<ImageWithMemory> := [];
      var vInfos: seq<ViewCreateInfo> := [];
      var failure: Option<Failure> := None;
      var i := 0;
      while i < maxFrameInFlight
        invariant 0 <= i <= maxFrameInFlight
        invariant |images| == i && |memories| == i && |infos| == i && |vInfos| == i
        invariant |views| == maxFrameInFlight
        invariant forall j :: 0 <= j < i ==>
                    && images[j] == first + 3 * j
                    && memories[j] == first + 3 * j + 1
                    && views[j] == first + 3 * j + 2
        invariant forall j :: 0 <= j < i ==>
                    && infos[j].image == AttachmentImageInfo(screenWidth, screenHeight)
                    && infos[j].memory.allocationSize == requirements.size
                    && Some(infos[j].memory.memoryTypeIndex)
                       == FirstFitting(requirements.memoryTypeBits, memoryTypes, IsDeviceLocal, 0)
                    && vInfos[j] == ViewCreateInfo(images[j], AttachmentFormat)
        invariant failure.None? && i > 0 ==>
                    FirstFitting(requirements.memoryTypeBits, memoryTypes, IsDeviceLocal, 0).Some?
        invariant failure.Some? ==>
                    && FirstFitting(requirements.memoryTypeBits, memoryTypes, IsDeviceLocal, 0).None?
                    && failure.value == RuntimeError("Couldn't find suitable memory.")
      {
        var created := CreateImage(screenWidth, screenHeight, AttachmentFormat, AttachmentUsage,
                                   requirements, memoryTypes);
        if created.Err? {
          failure := Some(created.failure);
          break;
        }
        images := images + [first + 3 * i];
        memories := memories + [first + 3 * i + 1];
        infos := infos + [created.value];
        views := views[i := first + 3 * i + 2];
        vInfos := vInfos + [ViewCreateInfo(images[i], AttachmentFormat)];
        i := i + 1;
      }

      commandPool := 1;
      commandBuffers := HandleRange(2, maxFrameInFlight);
      colorAttachments := images;
      colorAttachmentMemory := memories;
      colorAttachmentViews := views;
      attachmentInfos := infos;
      viewInfos := vInfos;
      this.screenWidth := screenWidth;
      this.screenHeight := screenHeight;
      maxFrameInFlights := maxFrameInFlight;
      recorded := seq(maxFrameInFlight, k => []);
      submissions := [];
      releases := [];
      if failure.Some? {
        status := Fail(failure.value);
        layoutRequests := [];
      } else {
        status := Pass;
        layoutRequests := [LayoutRequest(images, LayoutUndefined, LayoutColorAttachmentOptimal)];
      }
    }

    /** `BuildCommandBuffers(frameInFlight, changeImageLayout)`: re-records the slot's
        command buffer to clear the slot's attachment, preceded by the restoring barrier on
        request. */
    method BuildCommandBuffers(frameInFlight: nat, changeImageLayout: bool)
      requires Valid() && frameInFlight < maxFrameInFlights
      modifies this`recorded
      ensures Valid()
      ensures recorded == old(recorded)[frameInFlight := GraphicsFrameCommands(colorAttachments[frameInFlight],
                            colorAttachmentViews[frameInFlight], screenWidth, screenHeight, changeImageLayout)]
    {
      var cmds: seq<Command> := [];
      cmds := cmds + [ResetCommandBuffer];
      cmds := cmds + [BeginCommandBuffer(true)];
      if changeImageLayout {
        cmds := cmds + [ImageBarrier(colorAttachments[frameInFlight], StageTransfer, StageTopOfPipe,
                                     AccessTransferWrite, AccessNone,
                                     LayoutTransferSrcOptimal, LayoutColorAttachmentOptimal)];
      }
      cmds := cmds + [BeginRendering(colorAttachmentViews[frameInFlight], LayoutColorAttachmentOptimal, true,
                                     screenWidth, screenHeight)];
      cmds := cmds + [SetViewport];
      cmds := cmds + [SetScissor(screenWidth, screenHeight)];
      cmds := cmds + [EndRendering];
      cmds := cmds + [EndCommandBuffer];
      assert cmds == GraphicsFrameCommands(colorAttachments[frameInFlight], colorAttachmentViews[frameInFlight],
                                           screenWidth, screenHeight, changeImageLayout);
      recorded := recorded[frameInFlight := cmds];
    }

    /** `Update`: re-records the slot, with the restoring barrier exactly when
        `frameIndex > 1`, and submits the slot's command buffer with one signal of
        `timelineSem` at `signalValue` after colour-attachment output. The wait on
        `waitValue` is prepared but never attached, and the `m_alive` gate is commented
        out, so every call submits. */
    method Update(frameIndex: nat, frameInFlight: nat, timelineSem: nat, signalValue: nat, waitValue: nat)
      requires Valid() && frameInFlight < maxFrameInFlights
      modifies this`recorded, this`submissions
      ensures Valid()
      ensures recorded == old(recorded)[frameInFlight := GraphicsFrameCommands(colorAttachments[frameInFlight],
                            colorAttachmentViews[frameInFlight], screenWidth, screenHeight, frameIndex > 1)]
      ensures |submissions| == |old(submissions)| + 1 && submissions[..|old(submissions)|] == old(submissions)
      ensures var s := submissions[|submissions| - 1];
              && s.commandBuffers == [commandBuffers[frameInFlight]]
              && s.waits == []
              && s.signals == [SemaphoreSubmit(timelineSem, signalValue, StageColorAttachmentOutput)]
    {
      if frameIndex > 1 {
        BuildCommandBuffers(frameInFlight, true);
      } else {
        BuildCommandBuffers(frameInFlight, false);
      }
      var waitInfo := SemaphoreSubmit(timelineSem, waitValue, StageVertexInput);
      var signalInfo := SemaphoreSubmit(timelineSem, signalValue, StageColorAttachmentOutput);
      var submitInfo := Submission([commandBuffers[frameInFlight]], [], [signalInfo]);
      submissions := submissions + [submitInfo];
    }

    /** The destructor: the command pool, then view, memory and image of every attachment. */
    method Destroy()
      requires Valid()
      modifies this`releases
      ensures releases == old(releases) + [DestroyCommandPool(commandPool)]
                          + AttachmentReleases(colorAttachmentViews, colorAttachmentMemory, colorAttachments,
                                               |colorAttachments|)
    {
      releases := releases + [DestroyCommandPool(commandPool)];
      var i := 0;
      while i < |colorAttachments|
        invariant 0 <= i <= |colorAttachments|
        invariant releases == old(releases) + [DestroyCommandPool(commandPool)]
                              + AttachmentReleases(colorAttachmentViews, colorAttachmentMemory, colorAttachments, i)
      {
        releases := releases + [DestroyImageView(colorAttachmentViews[i])];
        releases := releases + [FreeMemory(colorAttachmentMemory[i])];
        releases := releases + [DestroyImage(colorAttachments[i])];
        i := i + 1;
      }
    }
  }
}
