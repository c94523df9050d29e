/** `TextureCreatorComputeTask` (TextureCreatorComputeTask.cpp): the compute stage that
    writes a storage image per frame-in-flight slot and signals a timeline semaphore.
    Every `vkCmd*` call becomes one `Command` appended to the slot's recording, and
    `vkQueueSubmit2` one `Submission` appended to the compute queue's log. */
module ComputeTask {
  import opened Vk

  /** Work-group edge of the Mandelbrot shader: one group covers 32 x 32 texels. */
  const GroupSize: nat := 32

  /** Bytes of push-constant data: one `float` (`sizeof(float)`). */
  const PushConstantSize: nat := 4

  /** What `BuildCommandBuffers(frameInFlight)` records into the slot's command buffer,
      given the slot's storage image and storage descriptor set. */
  function ComputeFrameCommands(image: nat, descriptorSet: nat, width: nat, height: nat): (cmds: seq<Command>)
    ensures SingleRecording(cmds)
    ensures |cmds| == 9 && cmds[6].Dispatch?
    ensures cmds[6].groupsX * GroupSize >= width && cmds[6].groupsY * GroupSize >= height
    ensures cmds[6].groupsX == 0 || (cmds[6].groupsX - 1) * GroupSize < width
    ensures cmds[6].groupsY == 0 || (cmds[6].groupsY - 1) * GroupSize < height
    ensures cmds[6].groupsZ == 1
  {
    [ ResetCommandBuffer,
      BeginCommandBuffer(true),
      ImageBarrier(image, StageTopOfPipe, StageComputeShader, AccessNone, AccessShaderWrite,
                   LayoutUndefined, LayoutGeneral),
      BindDescriptorSet(BindCompute, descriptorSet),
      BindPipeline(BindCompute),
      PushConstants(PushConstantSize),
      Dispatch(CeilDiv(width, GroupSize), CeilDiv(height, GroupSize), 1),
      ImageBarrier(image, StageComputeShader, StageBottomOfPipe, AccessShaderWrite, AccessNone,
                   LayoutGeneral, LayoutShaderReadOnlyOptimal),
      EndCommandBuffer ]
  }

  /** Whatever layout the slot's image was left in, the recording is valid for it (the first
      barrier starts from UNDEFINED), the dispatch runs with the image in GENERAL (the layout
      storage writes need), the recording leaves it in SHADER_READ_ONLY_OPTIMAL for the
      graphics stage, and the descriptor set is bound before the dispatch. */
  lemma ComputeRecordingLayouts(image: nat, descriptorSet: nat, width: nat, height: nat, initial: ImageLayout)
    ensures var cmds := ComputeFrameCommands(image, descriptorSet, width, height);
            && BarriersConsistent(cmds, image, initial)
            && LayoutAfter(cmds[..6], image, initial) == LayoutGeneral
            && LayoutAfter(cmds, image, initial) == LayoutShaderReadOnlyOptimal
            && cmds[3] == BindDescriptorSet(BindCompute, descriptorSet)
  {
    var cmds := ComputeFrameCommands(image, descriptorSet, width, height);
    var begin, setup, tail := cmds[..2], cmds[3..7], [cmds[8]];
    assert cmds[..6] == begin + [cmds[2]] + cmds[3..6];
    assert cmds == begin + [cmds[2]] + setup + [cmds[7]] + tail;
    NoBarrierKeepsLayout(begin, image, initial);
    SingleCommandLayout(cmds[2], image, initial);
    LayoutAfterAppend(begin, [cmds[2]], image, initial);
    NoBarrierKeepsLayout(setup, image, LayoutGeneral);
    NoBarrierKeepsLayout(cmds[3..6], image, LayoutGeneral);
    LayoutAfterAppend(begin + [cmds[2]], cmds[3..6], image, initial);
    LayoutAfterAppend(begin + [cmds[2]], setup, image, initial);
    SingleCommandLayout(cmds[7], image, LayoutGeneral);
    LayoutAfterAppend(begin + [cmds[2]] + setup, [cmds[7]], image, initial);
    NoBarrierKeepsLayout(tail, image, LayoutShaderReadOnlyOptimal);
    LayoutAfterAppend(begin + [cmds[2]] + setup + [cmds[7]], tail, image, initial);
  }

  /** A slot's recording leaves every other image's layout as it was. */
  lemma ComputeRecordingTouchesOnlyItsImage(image: nat, other: nat, descriptorSet: nat, width: nat, height: nat,
                                            initial: ImageLayout)
    requires other != image
    ensures LayoutAfter(ComputeFrameCommands(image, descriptorSet, width, height), other, initial) == initial
  {
    NoBarrierKeepsLayout(ComputeFrameCommands(image, descriptorSet, width, height), other, initial);
  }

  class TextureCreatorComputeTask {
    var commandPool: nat
    /** One primary command buffer per frame-in-flight slot. */
    var commandBuffers: seq<nat>
    var shaderModule: nat
    var pipelineLayout: nat
    var pipeline: nat
    /** The caller's per-slot storage descriptor sets and storage images. */
    var storageDescriptorSets: seq<nat>
    var images: seq<nat>
    var imageWidth: nat
    var imageHeight: nat
    var maxFrameInFlight: nat
    /** `m_alive`: cleared by the owner when its threads are being stopped. */
    var alive: bool
    /** The calls recorded into each slot's command buffer since (and including) its
        latest reset. */
    var recorded: seq<seq<Command>>
    /** What was submitted to the compute queue, in order. */
    var submissions: seq<Submission>
    /** What the destructor released, in order. */
    var releases: seq<Release>

    /** Resources are indexed by slot: one command buffer and one recording per slot, and
        no command buffer serves two slots. */
    predicate Valid()
      reads this
    {
      |commandBuffers| == maxFrameInFlight && |recorded| == maxFrameInFlight
      && Distinct(commandBuffers)
    }

    /** The constructor creates a command pool for `queueFamilyIndex` and allocates
        `maxFrameInFlights` command buffers from it in one call. `CreateShaderModule` is a
        stub returning a value-initialised tuple, so the shader module is the null handle.
        `alive` is the initial value of `m_alive`, which the constructor leaves to its
        owner. */
    constructor (queueFamilyIndex: nat, storageDescriptorSets: seq<nat>, images: seq<nat>,
                 imageWidth: nat, imageHeight: nat, maxFrameInFlights: nat, alive: bool)
      requires maxFrameInFlights > 0
      ensures Valid()
      ensures |commandBuffers| == maxFrameInFlights && commandPool !in commandBuffers
      ensures this.storageDescriptorSets == storageDescriptorSets && this.images == images
      ensures this.imageWidth == imageWidth && this.imageHeight == imageHeight
      ensures maxFrameInFlight == maxFrameInFlights && this.alive == alive
      ensures shaderModule == 0
      ensures forall k :: 0 <= k < |recorded| ==> recorded[k] == []
      ensures submissions == [] && releases == []
    {
      commandPool := 1;
      commandBuffers := HandleRange(2, maxFrameInFlights);
      shaderModule := 0;
      pipelineLayout := 2 + maxFrameInFlights;
      pipeline := 3 + maxFrameInFlights;
      this.storageDescriptorSets := storageDescriptorSets;
      this.images := images;
      this.imageWidth := imageWidth;
      this.imageHeight := imageHeight;
      maxFrameInFlight := maxFrameInFlights;
      this.alive := alive;
      recorded := seq(maxFrameInFlights, k => []);
      submissions := [];
      releases := [];
    }

    /** `BuildCommandBuffers(frameInFlight)`: re-records the slot's command buffer. */
    method BuildCommandBuffers(frameInFlight: nat)
      requires Valid()
      requires frameInFlight < maxFrameInFlight
      requires frameInFlight < |images| && frameInFlight < |storageDescriptorSets|
      modifies this`recorded
      ensures Valid()
      ensures recorded == old(recorded)[frameInFlight := ComputeFrameCommands(images[frameInFlight],
                                          storageDescriptorSets[frameInFlight], imageWidth, imageHeight)]
    {
      var cmds: seq<Command> := [];
      cmds := cmds + [ResetCommandBuffer];
      cmds := cmds + [BeginCommandBuffer(true)];
      cmds := cmds + [ImageBarrier(images[frameInFlight], StageTopOfPipe, StageComputeShader,
                                   AccessNone, AccessShaderWrite, LayoutUndefined, LayoutGeneral)];
      cmds := cmds + [BindDescriptorSet(BindCompute, storageDescriptorSets[frameInFlight])];
      cmds := cmds + [BindPipeline(BindCompute)];
      cmds := cmds + [PushConstants(PushConstantSize)];
      var x := CeilDiv(imageWidth, GroupSize);
      var y := CeilDiv(imageHeight, GroupSize);
      cmds := cmds + [Dispatch(x, y, 1)];
      cmds := cmds + [ImageBarrier(images[frameInFlight], StageComputeShader, StageBottomOfPipe,
                                   AccessShaderWrite, AccessNone, LayoutGeneral, LayoutShaderReadOnlyOptimal)];
      cmds := cmds + [EndCommandBuffer];
      assert cmds == ComputeFrameCommands(images[frameInFlight], storageDescriptorSets[frameInFlight],
                                          imageWidth, imageHeight);
      recorded := recorded[frameInFlight := cmds];
    }

    /** `Update`: re-records the slot, then submits its command buffer with one signal of
        `semaphore` at `signalValue` after the compute stage and no wait, but only while
        `alive` holds. `frameIndex` is not used. */
    method Update(frameIndex: nat, frameInFlight: nat, semaphore: nat, signalValue: nat)
      requires Valid()
      requires frameInFlight < maxFrameInFlight
      requires frameInFlight < |images| && frameInFlight < |storageDescriptorSets|
      modifies this`recorded, this`submissions
      ensures Valid()
      ensures recorded == old(recorded)[frameInFlight := ComputeFrameCommands(images[frameInFlight],
                                          storageDescriptorSets[frameInFlight], imageWidth, imageHeight)]
      ensures !alive ==> submissions == old(submissions)
      ensures alive ==> |submissions| == |old(submissions)| + 1
                        && submissions[..|old(submissions)|] == old(submissions)
      ensures alive ==> var s := submissions[|submissions| - 1];
                        && s.commandBuffers == [commandBuffers[frameInFlight]]
                        && s.waits == []
                        && s.signals == [SemaphoreSubmit(semaphore, signalValue, StageComputeShader)]
    {
      BuildCommandBuffers(frameInFlight);
      var signalInfo := SemaphoreSubmit(semaphore, signalValue, StageComputeShader);
      var submitInfo := Submission([commandBuffers[frameInFlight]], [], [signalInfo]);
      if alive {
        submissions := submissions + [submitInfo];
      }
    }

    /** The destructor: the pool (and with it every command buffer), the shader module, the
        pipeline layout and the pipeline, in that order. */
    method Destroy()
      modifies this`releases
      ensures releases == old(releases) + [DestroyCommandPool(commandPool), DestroyShaderModule(shaderModule),
                                           DestroyPipelineLayout(pipelineLayout), DestroyPipeline(pipeline)]
    {
      releases := releases + [DestroyCommandPool(commandPool)];
      releases := releases + [DestroyShaderModule(shaderModule)];
      releases := releases + [DestroyPipelineLayout(pipelineLayout)];
      releases := releases + [DestroyPipeline(pipeline)];
    }
  }
}
