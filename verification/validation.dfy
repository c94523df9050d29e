/** `ValidationManager` (ValidationManager.cpp): the layer and extension lists handed to
    instance and device creation, the debug-utils messenger set-up, and the messenger
    callback's labelling of messages. `debugBuild` stands for `_DEBUG`. */
module Validation {
  import opened Vk

  /** `VkObjectType` values (numeric values of the Vulkan headers). */
  const ObjectTypeUnknown: int := 0
  const ObjectTypeInstance: int := 1
  const ObjectTypePhysicalDevice: int := 2
  const ObjectTypeDevice: int := 3
  const ObjectTypeQueue: int := 4
  const ObjectTypeSemaphore: int := 5
  const ObjectTypeCommandBuffer: int := 6
  const ObjectTypeFence: int := 7
  const ObjectTypeDeviceMemory: int := 8
  const ObjectTypeBuffer: int := 9
  const ObjectTypeImage: int := 10
  const ObjectTypeEvent: int := 11
  const ObjectTypeQueryPool: int := 12
  const ObjectTypeBufferView: int := 13
  const ObjectTypeImageView: int := 14
  const ObjectTypeShaderModule: int := 15
  const ObjectTypePipelineCache: int := 16
  const ObjectTypePipelineLayout: int := 17
  const ObjectTypeRenderPass: int := 18
  const ObjectTypePipeline: int := 19
  const ObjectTypeDescriptorSetLayout: int := 20
  const ObjectTypeSampler: int := 21
  const ObjectTypeDescriptorPool: int := 22
  const ObjectTypeDescriptorSet: int := 23
  const ObjectTypeFramebuffer: int := 24
  const ObjectTypeCommandPool: int := 25
  const ObjectTypeSurface: int := 1000000000
  const ObjectTypeSwapchain: int := 1000001000
  const ObjectTypeDisplay: int := 1000002000
  const ObjectTypeDisplayMode: int := 1000002001
  const ObjectTypeDebugReportCallback: int := 1000011000
  const ObjectTypeDescriptorUpdateTemplate: int := 1000085000

  /** The cases of the `switch`, in source order, each with the name it returns. */
  const ObjectTypeNames: seq<(int, string)> := [
    (ObjectTypeInstance, "VkInstance"),
    (ObjectTypePhysicalDevice, "VkPhysicalDevice"),
    (ObjectTypeDevice, "VkDevice"),
    (ObjectTypeQueue, "VkQueue"),
    (ObjectTypeSemaphore, "VkSemaphore"),
    (ObjectTypeCommandBuffer, "VkCommandBuffer"),
    (ObjectTypeFence, "VkFence"),
    (ObjectTypeDeviceMemory, "VkDeviceMemory"),
    (ObjectTypeBuffer, "VkBuffer"),
    (ObjectTypeImage, "VkImage"),
    (ObjectTypeEvent, "VkEvent"),
    (ObjectTypeQueryPool, "VkQueryPool"),
    (ObjectTypeBufferView, "VkBufferView"),
    (ObjectTypeImageView, "VkImageView"),
    (ObjectTypeShaderModule, "VkShaderModule"),
    (ObjectTypePipelineCache, "VkPipelineCache"),
    (ObjectTypePipelineLayout, "VkPipelineLayout"),
    (ObjectTypeRenderPass, "VkRenderPass"),
    (ObjectTypePipeline, "VkPipeline"),
    (ObjectTypeDescriptorSetLayout, "VkDescriptorSetLayout"),
    (ObjectTypeSampler, "VkSampler"),
    (ObjectTypeDescriptorPool, "VkDescriptorPool"),
    (ObjectTypeDescriptorSet, "VkDescriptorSet"),
    (ObjectTypeFramebuffer, "VkFramebuffer"),
    (ObjectTypeCommandPool, "VkCommandPool"),
    (ObjectTypeSurface, "VkSurfaceKHR"),
    (ObjectTypeSwapchain, "VkSwapchainKHR"),
    (ObjectTypeDebugReportCallback, "VkDebugReportCallbackEXT"),
    (ObjectTypeDisplay, "VkDisplayKHR"),
    (ObjectTypeDisplayMode, "VkDisplayModeKHR"),
    (ObjectTypeDescriptorUpdateTemplate, "VkDescriptorUpdateTemplateKHR")
  ]

  const UnknownTypeName: string := "Unknown Type"

  /** `DebugAnnotObjectToString`: the name of a listed object type, and "Unknown Type" for
      every other value (including `VK_OBJECT_TYPE_UNKNOWN`). */
  function DebugAnnotObjectToString(objectType: int): (name: string)
    ensures forall k :: 0 <= k < |ObjectTypeNames| && ObjectTypeNames[k].0 == objectType ==>
              name == ObjectTypeNames[k].1
  {
    if objectType == ObjectTypeInstance then "VkInstance"
    else if objectType == ObjectTypePhysicalDevice then "VkPhysicalDevice"
    else if objectType == ObjectTypeDevice then "VkDevice"
    else if objectType == ObjectTypeQueue then "VkQueue"
    else if objectType == ObjectTypeSemaphore then "VkSemaphore"
    else if objectType == ObjectTypeCommandBuffer then "VkCommandBuffer"
    else if objectType == ObjectTypeFence then "VkFence"
    else if objectType == ObjectTypeDeviceMemory then "VkDeviceMemory"
    else if objectType == ObjectTypeBuffer then "VkBuffer"
    else if objectType == ObjectTypeImage then "VkImage"
    else if objectType == ObjectTypeEvent then "VkEvent"
    else if objectType == ObjectTypeQueryPool then "VkQueryPool"
    else if objectType == ObjectTypeBufferView then "VkBufferView"
    else if objectType == ObjectTypeImageView then "VkImageView"
    else if objectType == ObjectTypeShaderModule then "VkShaderModule"
    else if objectType == ObjectTypePipelineCache then "VkPipelineCache"
    else if objectType == ObjectTypePipelineLayout then "VkPipelineLayout"
    else if objectType == ObjectTypeRenderPass then "VkRenderPass"
    else if objectType == ObjectTypePipeline then "VkPipeline"
    else if objectType == ObjectTypeDescriptorSetLayout then "VkDescriptorSetLayout"
    else if objectType == ObjectTypeSampler then "VkSampler"
    else if objectType == ObjectTypeDescriptorPool then "VkDescriptorPool"
    else if objectType == ObjectTypeDescriptorSet then "VkDescriptorSet"
    else if objectType == ObjectTypeFramebuffer then "VkFramebuffer"
    else if objectType == ObjectTypeCommandPool then "VkCommandPool"
    else if objectType == ObjectTypeSurface then "VkSurfaceKHR"
    else if objectType == ObjectTypeSwapchain then "VkSwapchainKHR"
    else if objectType == ObjectTypeDebugReportCallback then "VkDebugReportCallbackEXT"
    else if objectType == ObjectTypeDisplay then "VkDisplayKHR"
    else if objectType == ObjectTypeDisplayMode then "VkDisplayModeKHR"
    else if objectType == ObjectTypeDescriptorUpdateTemplate then "VkDescriptorUpdateTemplateKHR"
    else UnknownTypeName
  }

  /** "Unknown Type" is returned exactly for the values the `switch` does not list. */
  lemma UnknownNameOnlyForUnlistedTypes(objectType: int)
    ensures DebugAnnotObjectToString(objectType) == UnknownTypeName <==>
              forall k :: 0 <= k < |ObjectTypeNames| ==> ObjectTypeNames[k].0 != objectType
  {
    forall k | 0 <= k < |ObjectTypeNames|
      ensures ObjectTypeNames[k].1 != UnknownTypeName
    {
      assert ObjectTypeNames[k].1[0] == 'V' != UnknownTypeName[0];
    }
    if forall k :: 0 <= k < |ObjectTypeNames| ==> ObjectTypeNames[k].0 != objectType {
      assert ObjectTypeNames[0].0 != objectType;
      assert ObjectTypeNames[1].0 != objectType;
      assert ObjectTypeNames[2].0 != objectType;
      assert ObjectTypeNames[3].0 != objectType;
      assert ObjectTypeNames[4].0 != objectType;
      assert ObjectTypeNames[5].0 != objectType;
      assert ObjectTypeNames[6].0 != objectType;
      assert ObjectTypeNames[7].0 != objectType;
      assert ObjectTypeNames[8].0 != objectType;
      assert ObjectTypeNames[9].0 != objectType;
      assert ObjectTypeNames[10].0 != objectType;
      assert ObjectTypeNames[11].0 != objectType;
      assert ObjectTypeNames[12].0 != objectType;
      assert ObjectTypeNames[13].0 != objectType;
      assert ObjectTypeNames[14].0 != objectType;
      assert ObjectTypeNames[15].0 != objectType;
      assert ObjectTypeNames[16].0 != objectType;
      assert ObjectTypeNames[17].0 != objectType;
      assert ObjectTypeNames[18].0 != objectType;
      assert ObjectTypeNames[19].0 != objectType;
      assert ObjectTypeNames[20].0 != objectType;
      assert ObjectTypeNames[21].0 != objectType;
      assert ObjectTypeNames[22].0 != objectType;
      assert ObjectTypeNames[23].0 != objectType;
      assert ObjectTypeNames[24].0 != objectType;
      assert ObjectTypeNames[25].0 != objectType;
      assert ObjectTypeNames[26].0 != objectType;
      assert ObjectTypeNames[27].0 != objectType;
      assert ObjectTypeNames[28].0 != objectType;
      assert ObjectTypeNames[29].0 != objectType;
      assert ObjectTypeNames[30].0 != objectType;
    }
  }

  /** The name given to a listed object type determines the type: distinct listed types
      get distinct names. */
  lemma ObjectTypeNameIdentifiesType(a: int, b: int)
    requires DebugAnnotObjectToString(a) != UnknownTypeName
    requires DebugAnnotObjectToString(a) == DebugAnnotObjectToString(b)
    ensures a == b
  {
  }

  /** `VkDebugUtilsMessageSeverityFlagBitsEXT`. */
  const SeverityVerbose: bv32 := 0x1
  const SeverityInfo: bv32 := 0x10
  const SeverityWarning: bv32 := 0x100
  const SeverityError: bv32 := 0x1000

  /** `VkDebugUtilsMessageTypeFlagBitsEXT`. */
  const MessageTypeGeneral: bv32 := 0x1
  const MessageTypeValidation: bv32 := 0x2
  const MessageTypePerformance: bv32 := 0x4

  /** The severity tests of the callback, in the order they are made, with the label each
      copies into the prefix. */
  const SeverityLabels: seq<(bv32, string)> := [
    (SeverityVerbose, "VERBOSE : "),
    (SeverityInfo, "INFO : "),
    (SeverityWarning, "WARNING : "),
    (SeverityError, "ERROR : ")
  ]

  /** Every severity bit the callback tests. */
  const KnownSeverities: bv32 := SeverityVerbose | SeverityInfo | SeverityWarning | SeverityError

  /** The severity part of the prefix: the label of the first of VERBOSE, INFO, WARNING,
      ERROR whose bit is set. `None` when none is, where the source leaves the prefix
      buffer uninitialised. */
  function SeverityLabel(messageSeverity: bv32): (text: Option<string>)
    ensures text.None? <==> messageSeverity & KnownSeverities == 0
  {
    if messageSeverity & SeverityVerbose != 0 then Some("VERBOSE : ")
    else if messageSeverity & SeverityInfo != 0 then Some("INFO : ")
    else if messageSeverity & SeverityWarning != 0 then Some("WARNING : ")
    else if messageSeverity & SeverityError != 0 then Some("ERROR : ")
    else None
  }

  /** The label comes from the first set bit in the order the tests are made. Since the
      severity bits grow in that order, this is the lowest set severity bit: a message
      flagged both WARNING and ERROR is labelled WARNING. */
  lemma SeverityLabelFirstMatch(messageSeverity: bv32, k: nat)
    requires k < |SeverityLabels| && messageSeverity & SeverityLabels[k].0 != 0
    requires forall j :: 0 <= j < k ==> messageSeverity & SeverityLabels[j].0 == 0
    ensures SeverityLabel(messageSeverity) == Some(SeverityLabels[k].1)
  {
    if k > 0 {
      assert messageSeverity & SeverityLabels[0].0 == 0;
    }
    if k > 1 {
      assert messageSeverity & SeverityLabels[1].0 == 0;
    }
    if k > 2 {
      assert messageSeverity & SeverityLabels[2].0 == 0;
    }
  }

  /** The type part of the prefix: GENERAL if the general bit is set, otherwise PERF if the
      performance bit is set, otherwise nothing (a validation-only message). */
  function TypeLabel(messageType: bv32): (text: string)
    ensures text == "GENERAL" <==> messageType & MessageTypeGeneral != 0
    ensures text == "PERF" <==> messageType & MessageTypeGeneral == 0 && messageType & MessageTypePerformance != 0
    ensures text == "" <==> messageType & (MessageTypeGeneral | MessageTypePerformance) == 0
  {
    if messageType & MessageTypeGeneral != 0 then "GENERAL"
    else if messageType & MessageTypePerformance != 0 then "PERF"
    else ""
  }

  /** `debug_messenger_callback`: `objectTypes` are the types of the objects in the callback
      data. The prefix (severity label, then type label) and the type name printed for
      each object are returned; `abort` is the `VkBool32` handed back to the layer. A
      prefix that was never initialised is `None`. */
  method DebugMessengerCallback(messageSeverity: bv32, messageType: bv32, objectTypes: seq<int>)
    returns (abort: bool, prefix: Option<string>, objectNames: seq<string>)
    ensures !abort
    ensures prefix.None? <==> SeverityLabel(messageSeverity).None?
    ensures prefix.Some? ==> prefix.value == SeverityLabel(messageSeverity).value + TypeLabel(messageType)
    ensures |objectNames| == |objectTypes|
    ensures forall i :: 0 <= i < |objectTypes| ==> objectNames[i] == DebugAnnotObjectToString(objectTypes[i])
  {
    prefix := None;
    if messageSeverity & SeverityVerbose != 0 {
      prefix := Some("VERBOSE : ");
    } else if messageSeverity & SeverityInfo != 0 {
      prefix := Some("INFO : ");
    } else if messageSeverity & SeverityWarning != 0 {
      prefix := Some("WARNING : ");
    } else if messageSeverity & SeverityError != 0 {
      prefix := Some("ERROR : ");
    }
    if messageType & MessageTypeGeneral != 0 {
      prefix := if prefix.Some? then Some(prefix.value + "GENERAL") else None;
    } else {
      if messageType & MessageTypePerformance != 0 {
        prefix := if prefix.Some? then Some(prefix.value + "PERF") else None;
      }
    }

    objectNames := [];
    var index := 0;
    while index < |objectTypes|
      invariant 0 <= index <= |objectTypes|
      invariant |objectNames| == index
      invariant forall i :: 0 <= i < index ==> objectNames[i] == DebugAnnotObjectToString(objectTypes[i])
    {
      objectNames := objectNames + [DebugAnnotObjectToString(objectTypes[index])];
      index := index + 1;
    }
    abort := false;
  }

  /** Extension and layer names (values of the Vulkan header macros). */
  const SurfaceExtension: string := "VK_KHR_surface"
  const PhysicalDeviceProperties2Extension: string := "VK_KHR_get_physical_device_properties2"
  const SwapchainExtension: string := "VK_KHR_swapchain"
  const DynamicRenderingExtension: string := "VK_KHR_dynamic_rendering"
  const TimelineSemaphoreExtension: string := "VK_KHR_timeline_semaphore"
  const DebugUtilsExtension: string := "VK_EXT_debug_utils"
  const ValidationLayer: string := "VK_LAYER_KHRONOS_validation"

  /** The debug-utils entry points `InitDebug` looks up. */
  const CreateMessengerProc: string := "vkCreateDebugUtilsMessengerEXT"
  const DestroyMessengerProc: string := "vkDestroyDebugUtilsMessengerEXT"
  const LabelProcs: seq<string> := ["vkSetDebugUtilsObjectNameEXT", "vkCmdBeginDebugUtilsLabelEXT",
                                    "vkCmdEndDebugUtilsLabelEXT", "vkCmdInsertDebugUtilsLabelEXT"]

  /** The `VkDebugUtilsMessengerCreateInfoEXT` fields the code sets. */
  datatype MessengerCreateInfo = MessengerCreateInfo(messageSeverity: bv32, messageType: bv32)

  /** The messenger filter a debug build installs: warnings and errors of every type. */
  const DebugMessengerInfo: MessengerCreateInfo :=
    MessengerCreateInfo(SeverityWarning | SeverityError,
                        MessageTypeGeneral | MessageTypeValidation | MessageTypePerformance)

  /** The messenger filter passes only warnings and errors, and only ones the callback
      labels: every severity it lets through gets a WARNING or ERROR label. */
  lemma DebugFilterLabelsEveryMessage(messageSeverity: bv32)
    requires messageSeverity & DebugMessengerInfo.messageSeverity != 0
    ensures SeverityLabel(messageSeverity).Some?
    ensures messageSeverity & SeverityVerbose == 0 && messageSeverity & SeverityInfo == 0 ==>
              (SeverityLabel(messageSeverity) == Some("WARNING : ")
               || SeverityLabel(messageSeverity) == Some("ERROR : "))
  {
    var filter := DebugMessengerInfo.messageSeverity;
    assert filter == SeverityWarning | SeverityError;
    assert messageSeverity & SeverityWarning != 0 || messageSeverity & SeverityError != 0;
  }

  /** `InitDebug` completes: a release build skips it, and a debug build needs the
      messenger-creation entry point and the four label and object-name entry points. */
  predicate DebugProcsResolve(debugBuild: bool, available: set<string>)
  {
    !debugBuild
    || (CreateMessengerProc in available && forall k :: 0 <= k < |LabelProcs| ==> LabelProcs[k] in available)
  }

  class ValidationManager {
    var debugBuild: bool
    var deviceLayerNameList: seq<string>
    var deviceExtensionNameList: seq<string>
    var instanceLayerNameList: seq<string>
    var instanceExtensionNameList: seq<string>
    /** `dbg_messenger_create_info`; left uninitialised (`None`) outside debug builds. */
    var messengerCreateInfo: Option<MessengerCreateInfo>
    /** Whether `InitDebug` called the messenger-creation entry point. */
    var messengerCreateCalled: bool
    /** The instance entry points `InitDebug` found, by name. */
    var resolvedProcs: set<string>

    /** The constructor: `SetupLayersAndExtensions`, then `SetupDebug`.
        `platformExtensions` is what `glfwGetRequiredInstanceExtensions` reports. */
    constructor (debugBuild: bool, platformExtensions: seq<string>)
      ensures this.debugBuild == debugBuild
      ensures instanceExtensionNameList
              == [SurfaceExtension, PhysicalDeviceProperties2Extension] + platformExtensions
                 + (if debugBuild then [DebugUtilsExtension] else [])
      ensures deviceExtensionNameList == [SwapchainExtension, DynamicRenderingExtension, TimelineSemaphoreExtension]
      ensures instanceLayerNameList == (if debugBuild then [ValidationLayer] else [])
      ensures deviceLayerNameList == []
      ensures messengerCreateInfo == (if debugBuild then Some(DebugMessengerInfo) else None)
      ensures !messengerCreateCalled && resolvedProcs == {}
    {
      this.debugBuild := debugBuild;
      deviceLayerNameList := [];
      deviceExtensionNameList := [];
      instanceLayerNameList := [];
      instanceExtensionNameList := [];
      messengerCreateInfo := None;
      messengerCreateCalled := false;
      resolvedProcs := {};
      new;
      SetupLayersAndExtensions(platformExtensions);
      SetupDebug();
    }

    /** `AddRequiredPlatformInstanceExtensions` in the GLFW build: appends the reported
        extensions one by one, in order. */
    method AddRequiredPlatformInstanceExtensions(platformExtensions: seq<string>)
      modifies this`instanceExtensionNameList
      ensures instanceExtensionNameList == old(instanceExtensionNameList) + platformExtensions
    {
      var i := 0;
      while i < |platformExtensions|
        invariant 0 <= i <= |platformExtensions|
        invariant instanceExtensionNameList == old(instanceExtensionNameList) + platformExtensions[..i]
      {
        instanceExtensionNameList := instanceExtensionNameList + [platformExtensions[i]];
        assert platformExtensions[..i + 1] == platformExtensions[..i] + [platformExtensions[i]];
        i := i + 1;
      }
      assert platformExtensions[..i] == platformExtensions;
    }

    /** `SetupLayersAndExtensions`: surface and properties-2 instance extensions; swapchain,
        dynamic-rendering and timeline-semaphore device extensions; then the platform's
        instance extensions. */
    method SetupLayersAndExtensions(platformExtensions: seq<string>)
      modifies this`instanceExtensionNameList, this`deviceExtensionNameList
      ensures instanceExtensionNameList
              == old(instanceExtensionNameList) + [SurfaceExtension, PhysicalDeviceProperties2Extension]
                 + platformExtensions
      ensures deviceExtensionNameList
              == old(deviceExtensionNameList) + [SwapchainExtension, DynamicRenderingExtension, TimelineSemaphoreExtension]
    {
      instanceExtensionNameList := instanceExtensionNameList + [SurfaceExtension];
      instanceExtensionNameList := instanceExtensionNameList + [PhysicalDeviceProperties2Extension];
      deviceExtensionNameList := deviceExtensionNameList + [SwapchainExtension];
      deviceExtensionNameList := deviceExtensionNameList + [DynamicRenderingExtension];
      deviceExtensionNameList := deviceExtensionNameList + [TimelineSemaphoreExtension];
      AddRequiredPlatformInstanceExtensions(platformExtensions);
    }

    /** `SetupDebug`: in a debug build, the validation layer and the debug-utils extension
        are appended and the messenger is set to report warnings and errors of every type;
        otherwise nothing happens. */
    method SetupDebug()
      modifies this`instanceLayerNameList, this`instanceExtensionNameList, this`messengerCreateInfo
      ensures instanceLayerNameList == old(instanceLayerNameList) + (if debugBuild then [ValidationLayer] else [])
      ensures instanceExtensionNameList
              == old(instanceExtensionNameList) + (if debugBuild then [DebugUtilsExtension] else [])
      ensures messengerCreateInfo == if debugBuild then Some(DebugMessengerInfo) else old(messengerCreateInfo)
    {
      if debugBuild {
        instanceLayerNameList := instanceLayerNameList + [ValidationLayer];
        instanceExtensionNameList := instanceExtensionNameList + [DebugUtilsExtension];
        messengerCreateInfo := Some(DebugMessengerInfo);
      }
    }

    /** `InitDebug`: `available` is the set of names `vkGetInstanceProcAddr` resolves. In a
        debug build the messenger-creation entry point is called without a null check, so
        a missing one is a call through a null pointer; afterwards a missing label or
        object-name entry point fails the assertion. A release build does nothing. */
    method InitDebug(available: set<string>) returns (r: Outcome)
      modifies this`messengerCreateCalled, this`resolvedProcs
      ensures r == Pass <==> DebugProcsResolve(debugBuild, available)
      ensures !debugBuild ==> r == Pass && messengerCreateCalled == old(messengerCreateCalled)
                              && resolvedProcs == old(resolvedProcs)
      ensures debugBuild && CreateMessengerProc !in available ==> r == Fail(NullFunctionCall)
      ensures debugBuild && CreateMessengerProc in available ==>
                messengerCreateCalled
                && (r == Pass <==> forall k :: 0 <= k < |LabelProcs| ==> LabelProcs[k] in available)
                && (r.Fail? ==> r.failure == AssertionFailed)
      ensures r == Pass && debugBuild ==>
                forall p :: p in LabelProcs + [CreateMessengerProc, DestroyMessengerProc] && p in available ==>
                  p in resolvedProcs
    {
      if !debugBuild {
        return Pass;
      }
      var names := [CreateMessengerProc, DestroyMessengerProc];
      resolvedProcs := set p | p in names && p in available;
      if CreateMessengerProc !in available {
        return Fail(NullFunctionCall);
      }
      messengerCreateCalled := true;
      resolvedProcs := resolvedProcs + set p | p in LabelProcs && p in available;
      if LabelProcs[0] !in available || LabelProcs[1] !in available
         || LabelProcs[2] !in available || LabelProcs[3] !in available {
        return Fail(AssertionFailed);
      }
      r := Pass;
    }
  }
}
