/** Device set-up selection rules of `VulkanManager` (VulkanManager.cpp): which physical
    device, which queue family, which queues, which depth format, and which surface size
    and format the renderer adopts. Enumeration and capability queries are foreign, so
    their answers are inputs. The family search is given twice: `GetQueuesFamilyIndex` as
    the source writes it, and `IntendedQueueFamilyIndex`, the corrected search that `Init`
    uses. */
module Device {
  import opened Vk
  import Validation

  /** `VkPhysicalDeviceType`. */
  datatype PhysicalDeviceType = DeviceOther | IntegratedGpu | DiscreteGpu | VirtualGpu | DeviceCpu

  /** `VkQueueFlagBits`. */
  const QueueGraphicsBit: bv32 := 0x1
  const QueueComputeBit: bv32 := 0x2
  const QueueTransferBit: bv32 := 0x4

  /** `VK_FORMAT_FEATURE_DEPTH_STENCIL_ATTACHMENT_BIT`. */
  const FormatFeatureDepthStencilAttachment: bv32 := 0x200

  /** The depth formats `FindBestDepthFormat` tries, best first. */
  const DepthCandidates: seq<int> := [FormatD32SfloatS8Uint, FormatD24UnormS8Uint,
                                      FormatD16UnormS8Uint, FormatD32Sfloat, FormatD16Unorm]

  /** Queues requested per family: one for graphics, one for compute. */
  const MinGraphicQueueRequired: nat := 1
  const MinComputeQueueRequired: nat := 1

  /** What the foreign queries report about one enumerated physical device. */
  datatype PhysicalDeviceInfo = PhysicalDeviceInfo(
    deviceType: PhysicalDeviceType,
    queueFamilyFlags: seq<bv32>,            // `queueFlags` of each queue family
    optimalTilingFeatures: int -> bv32)     // `optimalTilingFeatures` of each format

  /** `VkDeviceQueueCreateInfo`, the fields the code sets (priorities are left out). */
  datatype QueueCreateInfo = QueueCreateInfo(queueFamilyIndex: nat, queueCount: nat, flags: nat)

  /** A queue obtained with `vkGetDeviceQueue(device, family, index)`. */
  datatype QueueRef = QueueRef(family: nat, index: nat)

  datatype Extent = Extent(width: Uint32, height: Uint32)

  /** `VkSurfaceFormatKHR`. */
  datatype SurfaceFormat = SurfaceFormat(format: int, colorSpace: int)

  predicate IsDiscrete(t: PhysicalDeviceType) { t == DiscreteGpu }
  predicate IsIntegrated(t: PhysicalDeviceType) { t == IntegratedGpu }

  /** The device `GetPhysicalDevice` settles on: the first discrete GPU in enumeration
      order, otherwise the last integrated GPU, otherwise none. */
  function PreferredDevice(devices: seq<PhysicalDeviceType>): (r: Option<nat>)
    ensures r.Some? ==> r.value < |devices|
                        && (devices[r.value] == DiscreteGpu || devices[r.value] == IntegratedGpu)
    ensures r.None? <==> forall j :: 0 <= j < |devices| ==>
                           devices[j] != DiscreteGpu && devices[j] != IntegratedGpu
    ensures r.Some? && devices[r.value] == DiscreteGpu ==>
              forall j :: 0 <= j < r.value ==> devices[j] != DiscreteGpu
    ensures r.Some? && devices[r.value] == IntegratedGpu ==>
              (forall j :: 0 <= j < |devices| ==> devices[j] != DiscreteGpu)
              && (forall j :: r.value < j < |devices| ==> devices[j] != IntegratedGpu)
  {
    match FirstIndex(devices, IsDiscrete)
    case Some(i) => Some(i)
    case None => LastIndex(devices, IsIntegrated)
  }

  /** `queueFlags & req == req` as C++ parses it: `==` binds tighter than `&`, so the test is
      `queueFlags & (req == req)`, and the `bool` `true` converts to 1. */
  predicate FamilyTestAsWritten(queueFlags: bv32, req: bv32)
  {
    queueFlags & (if req == req then 1 else 0) != 0
  }

  /** A family passes both tests of `GetQueuesFamilyIndex` as written. */
  predicate PassesFamilyTestsAsWritten(queueFlags: bv32)
  {
    FamilyTestAsWritten(queueFlags, QueueGraphicsBit) && FamilyTestAsWritten(queueFlags, QueueComputeBit)
  }

  /** Both tests reduce to the graphics bit: the compute bit is never looked at. */
  lemma FamilyTestsReduceToGraphicsBit(queueFlags: bv32)
    ensures PassesFamilyTestsAsWritten(queueFlags) <==> queueFlags & QueueGraphicsBit != 0
    ensures PassesFamilyTestsAsWritten(queueFlags) == PassesFamilyTestsAsWritten(queueFlags ^ QueueComputeBit)
  {
  }

  /** The test `GetQueuesFamilyIndex` evidently intends: the family supports both graphics
      and compute. */
  predicate SupportsGraphicsAndCompute(queueFlags: bv32)
  {
    queueFlags & QueueGraphicsBit == QueueGraphicsBit && queueFlags & QueueComputeBit == QueueComputeBit
  }

  /** The corrected family search: the first family that supports both graphics and
      compute. */
  function IntendedQueueFamilyIndex(queueFamilyFlags: seq<bv32>): (r: Option<nat>)
    ensures r.Some? ==> r.value < |queueFamilyFlags|
                        && queueFamilyFlags[r.value] & QueueGraphicsBit != 0
                        && queueFamilyFlags[r.value] & QueueComputeBit != 0
    ensures r.Some? ==> forall j :: 0 <= j < r.value ==> !SupportsGraphicsAndCompute(queueFamilyFlags[j])
    ensures r.None? ==> forall j :: 0 <= j < |queueFamilyFlags| ==> !SupportsGraphicsAndCompute(queueFamilyFlags[j])
  {
    var r := FirstIndex(queueFamilyFlags, SupportsGraphicsAndCompute);
    if r.Some? then
      assert SupportsGraphicsAndCompute(queueFamilyFlags[r.value]);
      r
    else r
  }

  /** The search as written accepts a graphics-only family: with families
      [GRAPHICS, GRAPHICS | COMPUTE] it picks family 0, which has no compute support, where
      the intended search picks family 1. */
  lemma GraphicsOnlyFamilyAccepted()
    ensures var families := [QueueGraphicsBit, QueueGraphicsBit | QueueComputeBit];
            && FirstIndex(families, PassesFamilyTestsAsWritten) == Some(0)
            && families[0] & QueueComputeBit == 0
            && IntendedQueueFamilyIndex(families) == Some(1)
  {
    var families := [QueueGraphicsBit, QueueGraphicsBit | QueueComputeBit];
    assert PassesFamilyTestsAsWritten(families[0]);
    assert !SupportsGraphicsAndCompute(families[0]);
    assert SupportsGraphicsAndCompute(families[1]);
    assert families[1..] == [QueueGraphicsBit | QueueComputeBit];
  }

  /** A format the driver can use as an optimally tiled depth/stencil attachment. */
  predicate DepthCapable(optimalTilingFeatures: int -> bv32, format: int)
  {
    optimalTilingFeatures(format) & FormatFeatureDepthStencilAttachment != 0
  }

  /** The depth format `FindBestDepthFormat` settles on: the first candidate, in the order
      D32_S8, D24_S8, D16_S8, D32, D16, that is depth-capable. */
  function BestDepthFormat(optimalTilingFeatures: int -> bv32): (r: Option<int>)
    ensures r.Some? ==> r.value in DepthCandidates && DepthCapable(optimalTilingFeatures, r.value)
    ensures r.Some? ==> forall k :: 0 <= k < |DepthCandidates| && DepthCandidates[k] == r.value ==>
                          forall j :: 0 <= j < k ==> !DepthCapable(optimalTilingFeatures, DepthCandidates[j])
    ensures r.None? ==> forall k :: 0 <= k < |DepthCandidates| ==>
                          !DepthCapable(optimalTilingFeatures, DepthCandidates[k])
  {
    var i := FirstIndex(DepthCandidates, f => DepthCapable(optimalTilingFeatures, f));
    if i.Some? then Some(DepthCandidates[i.value]) else None
  }

  /** The surface format `CreateSurface` adopts from the reported list: the first reported
      format, unless that one is UNDEFINED (the surface has no preference), in which case
      B8G8R8A8_UNORM in the sRGB non-linear colour space. */
  function AdoptedSurfaceFormat(formats: seq<SurfaceFormat>): (f: SurfaceFormat)
    requires |formats| > 0
    ensures f.format != FormatUndefined
    ensures f == formats[0] || f == SurfaceFormat(FormatB8G8R8A8Unorm, ColorSpaceSrgbNonlinear)
    ensures formats[0].format != FormatUndefined ==> f == formats[0]
  {
    if formats[0].format == FormatUndefined
    then SurfaceFormat(FormatB8G8R8A8Unorm, ColorSpaceSrgbNonlinear)
    else formats[0]
  }

  /** The anonymous-namespace `FindQueue`: one create-info, for the given family, asking for
      one graphics and one compute queue. */
  method FindQueue(queueFamilyIndex: nat) returns (createInfoList: seq<QueueCreateInfo>)
    ensures |createInfoList| == 1
    ensures createInfoList[0].queueFamilyIndex == queueFamilyIndex
    ensures createInfoList[0].queueCount == 2 && createInfoList[0].flags == 0
  {
    createInfoList := [];
    var info := QueueCreateInfo(queueFamilyIndex, MinGraphicQueueRequired + MinComputeQueueRequired, 0);
    createInfoList := createInfoList + [info];
  }

  /** Every queue `Init` retrieves was requested when the device was created: its family
      has a create-info and its index is below that create-info's queue count. */
  predicate QueueRequested(createInfos: seq<QueueCreateInfo>, q: QueueRef)
  {
    exists k :: 0 <= k < |createInfos| && createInfos[k].queueFamilyIndex == q.family
                && q.index < createInfos[k].queueCount
  }

  /** The device types of an enumeration, in order. */
  function DeviceTypes(devices: seq<PhysicalDeviceInfo>): (types: seq<PhysicalDeviceType>)
    ensures |types| == |devices|
    ensures forall k :: 0 <= k < |devices| ==> types[k] == devices[k].deviceType
  {
    seq(|devices|, k requires 0 <= k < |devices| => devices[k].deviceType)
  }

  /** When `Init` runs to completion: a discrete or integrated GPU is enumerated, the debug
      set-up finds its entry points, and the chosen device has a family with graphics and
      compute and an optimally tiled depth format. */
  predicate InitSucceeds(devices: seq<PhysicalDeviceInfo>, debugBuild: bool, availableProcs: set<string>)
  {
    match PreferredDevice(DeviceTypes(devices))
    case None => false
    case Some(d) =>
      && Validation.DebugProcsResolve(debugBuild, availableProcs)
      && IntendedQueueFamilyIndex(devices[d].queueFamilyFlags).Some?
      && BestDepthFormat(devices[d].optimalTilingFeatures).Some?
  }

  /** A release build on a machine whose only GPU is discrete, with one family that does
      graphics and compute and a D32_SFLOAT_S8_UINT depth attachment, initialises. */
  lemma DiscreteGraphicsComputeDeviceInitialises(features: int -> bv32, availableProcs: set<string>)
    requires features(FormatD32SfloatS8Uint) & FormatFeatureDepthStencilAttachment != 0
    ensures InitSucceeds([PhysicalDeviceInfo(DiscreteGpu, [QueueGraphicsBit | QueueComputeBit], features)],
                         false, availableProcs)
  {
  }

  class VulkanManager {
    /** The chosen physical device, as its index in the enumeration; `None` is
        `VK_NULL_HANDLE`. */
    var physicalDevice: Option<nat>
    var queueFamilyIndex: nat
    /** The queue create-infos handed to `vkCreateDevice`. */
    var queueCreateInfos: seq<QueueCreateInfo>
    /** The device extensions handed to `vkCreateDevice`. */
    var enabledDeviceExtensions: seq<string>
    var graphicsQueue: Option<QueueRef>
    var computeQueue: Option<QueueRef>
    var depthFormat: int
    var surfaceWidth: nat
    var surfaceHeight: nat
    var surfaceFormat: SurfaceFormat
    /** The owned `ValidationManager`. */
    var validation: Validation.ValidationManager

    /** The fields the source leaves uninitialised (`m_queueFamilyIndex`, `m_depthFormat`,
        `m_surfaceFormat`) start at zero / UNDEFINED here. `debugBuild` and
        `platformExtensions` are what the owned `ValidationManager` is built from. */
    constructor (screenWidth: nat, screenHeight: nat, debugBuild: bool, platformExtensions: seq<string>)
      ensures fresh(validation) && validation.debugBuild == debugBuild
      ensures validation.instanceExtensionNameList
              == [Validation.SurfaceExtension, Validation.PhysicalDeviceProperties2Extension] + platformExtensions
                 + (if debugBuild then [Validation.DebugUtilsExtension] else [])
      ensures validation.deviceExtensionNameList
              == [Validation.SwapchainExtension, Validation.DynamicRenderingExtension, Validation.TimelineSemaphoreExtension]
      ensures validation.instanceLayerNameList == (if debugBuild then [Validation.ValidationLayer] else [])
      ensures validation.deviceLayerNameList == []
      ensures validation.messengerCreateInfo == (if debugBuild then Some(Validation.DebugMessengerInfo) else None)
      ensures !validation.messengerCreateCalled && validation.resolvedProcs == {}
      ensures physicalDevice.None? && graphicsQueue.None? && computeQueue.None?
      ensures queueCreateInfos == [] && enabledDeviceExtensions == []
      ensures surfaceWidth == screenWidth && surfaceHeight == screenHeight
      ensures depthFormat == FormatUndefined
    {
      physicalDevice := None;
      queueFamilyIndex := 0;
      queueCreateInfos := [];
      enabledDeviceExtensions := [];
      graphicsQueue, computeQueue := None, None;
      depthFormat := FormatUndefined;
      surfaceWidth, surfaceHeight := screenWidth, screenHeight;
      surfaceFormat := SurfaceFormat(FormatUndefined, ColorSpaceSrgbNonlinear);
      validation := new Validation.ValidationManager(debugBuild, platformExtensions);
    }

    /** `GetPhysicalDevice`: `devices` is the enumeration, in order. `ok` is false when the
        field is still null and the program stops. */
    method GetPhysicalDevice(devices: seq<PhysicalDeviceType>) returns (ok: bool)
      modifies this`physicalDevice
      ensures PreferredDevice(devices).Some? ==> physicalDevice == PreferredDevice(devices)
      ensures PreferredDevice(devices).None? ==> physicalDevice == old(physicalDevice)
      ensures ok <==> physicalDevice.Some?
    {
      var discreteGpu: Option<nat> := None;
      var integratedGpu: Option<nat> := None;
      var k := 0;
      while k < |devices|
        invariant 0 <= k <= |devices|
        invariant discreteGpu.None? ==> forall j :: 0 <= j < k ==> devices[j] != DiscreteGpu
        invariant discreteGpu.None? ==> integratedGpu == LastIndex(devices[..k], IsIntegrated)
        invariant discreteGpu.Some? ==> discreteGpu == FirstIndex(devices, IsDiscrete)
      {
        if devices[k] == DiscreteGpu {
          discreteGpu := Some(k);
          break;
        }
        if devices[k] == IntegratedGpu {
          integratedGpu := Some(k);
        }
        assert devices[..k + 1][..k] == devices[..k];
        k := k + 1;
      }
      assert discreteGpu.None? ==> devices[..k] == devices;

      if discreteGpu.Some? {
        physicalDevice := discreteGpu;
      } else if integratedGpu.Some? {
        physicalDevice := integratedGpu;
      }

      ok := physicalDevice.Some?;
    }

    /** `GetQueuesFamilyIndex` as written: `queueFamilyFlags` are the families of the chosen
        device. `None` when no family passes, where `assert(sameFamily == true)` fails.
        This is the as-written half of the precedence defect that `FamilyTestsReduceToGraphicsBit`
        and `GraphicsOnlyFamilyAccepted` exhibit; `Init` uses the corrected
        `IntendedQueueFamilyIndex` instead, so nothing calls this method. */
    method GetQueuesFamilyIndex(queueFamilyFlags: seq<bv32>) returns (r: Option<nat>)
      ensures r == FirstIndex(queueFamilyFlags, PassesFamilyTestsAsWritten)
      ensures r.Some? ==> queueFamilyFlags[r.value] & QueueGraphicsBit != 0
      ensures r.None? ==> forall j :: 0 <= j < |queueFamilyFlags| ==>
                            queueFamilyFlags[j] & QueueGraphicsBit == 0
    {
      var graphicsReq := QueueGraphicsBit;
      var computeReq := QueueComputeBit;
      var graphicsQueueFamilyIndex: nat := 0;
      var computeQueueFamilyIndex: nat := 0;
      var count := 0;
      var sameFamily := false;
      var j := 0;
      while j < |queueFamilyFlags|
        invariant 0 <= j <= |queueFamilyFlags|
        invariant !sameFamily ==> forall k :: 0 <= k < j ==> !PassesFamilyTestsAsWritten(queueFamilyFlags[k])
        invariant sameFamily ==> Some(graphicsQueueFamilyIndex) == FirstIndex(queueFamilyFlags, PassesFamilyTestsAsWritten)
      {
        count := 0;
        if queueFamilyFlags[j] & (if graphicsReq == graphicsReq then 1 else 0) != 0 {
          graphicsQueueFamilyIndex := j;
          count := count + 1;
        }
        if queueFamilyFlags[j] & (if computeReq == computeReq then 1 else 0) != 0 {
          computeQueueFamilyIndex := j;
          count := count + 1;
        }
        if count == 2 {
          sameFamily := true;
          assert PassesFamilyTestsAsWritten(queueFamilyFlags[j]);
          break;
        }
        j := j + 1;
      }
      if !sameFamily {
        return None;
      }
      r := Some(graphicsQueueFamilyIndex);
      FamilyTestsReduceToGraphicsBit(queueFamilyFlags[r.value]);
      forall k | 0 <= k < |queueFamilyFlags| ensures !PassesFamilyTestsAsWritten(queueFamilyFlags[k]) ==> queueFamilyFlags[k] & QueueGraphicsBit == 0 {
        FamilyTestsReduceToGraphicsBit(queueFamilyFlags[k]);
      }
    }

    /** `FindBestDepthFormat`: `optimalTilingFeatures` is what
        `vkGetPhysicalDeviceFormatProperties` reports. When no candidate qualifies the field
        is left as it was and `assert(0)` fires (`ok == false`). */
    method FindBestDepthFormat(optimalTilingFeatures: int -> bv32) returns (ok: bool)
      modifies this`depthFormat
      ensures ok <==> BestDepthFormat(optimalTilingFeatures).Some?
      ensures ok ==> depthFormat == BestDepthFormat(optimalTilingFeatures).value
      ensures !ok ==> depthFormat == old(depthFormat)
    {
      var i := 0;
      while i < 5
        invariant 0 <= i <= 5
        invariant forall k :: 0 <= k < i ==> !DepthCapable(optimalTilingFeatures, DepthCandidates[k])
        invariant depthFormat == old(depthFormat)
      {
        if optimalTilingFeatures(DepthCandidates[i]) & FormatFeatureDepthStencilAttachment != 0 {
          depthFormat := DepthCandidates[i];
          return true;
        }
        i := i + 1;
      }
      return false;
    }

    /** `CreateSurface` in the GLFW build. `surfaceCreated` and `wsiSupported` are the answers
        of `glfwCreateWindowSurface` and `vkGetPhysicalDeviceSurfaceSupportKHR`;
        `currentExtent` and `formats` those of the capability and format queries. The size is
        adopted only when the current extent's width is not the special value 0xFFFFFFFF
        ("the swapchain decides"); a program that stops (`Fail`) stops at the first failing
        query, with the fields as they were at that point. */
    method CreateSurface(surfaceCreated: bool, wsiSupported: bool, currentExtent: Extent,
                         formats: seq<SurfaceFormat>) returns (r: Outcome)
      modifies this`surfaceWidth, this`surfaceHeight, this`surfaceFormat
      ensures r == Pass <==> surfaceCreated && wsiSupported && |formats| > 0
      ensures r.Fail? ==> r.failure == AssertionFailed
      ensures if surfaceCreated && wsiSupported && currentExtent.width < Uint32Max
              then surfaceWidth == currentExtent.width && surfaceHeight == currentExtent.height
              else surfaceWidth == old(surfaceWidth) && surfaceHeight == old(surfaceHeight)
      ensures r == Pass ==> surfaceFormat == AdoptedSurfaceFormat(formats)
      ensures r.Fail? ==> surfaceFormat == old(surfaceFormat)
    {
      if !surfaceCreated {
        return Fail(AssertionFailed);
      }
      if !wsiSupported {
        return Fail(AssertionFailed);
      }
      if currentExtent.width < Uint32Max {
        surfaceWidth := currentExtent.width;
        surfaceHeight := currentExtent.height;
      }
      if |formats| == 0 {
        return Fail(AssertionFailed);
      }
      if formats[0].format == FormatUndefined {
        surfaceFormat := SurfaceFormat(FormatB8G8R8A8Unorm, ColorSpaceSrgbNonlinear);
      } else {
        surfaceFormat := formats[0];
      }
      r := Pass;
    }

    /** `CreateLogicalDevice`: the device is created with the queues `FindQueue` asks for
        and with every device extension of the `ValidationManager`; no layer is enabled.
        The feature chain (synchronization2, dynamic rendering) is not represented. */
    method CreateLogicalDevice(queueFamilyIndex: nat)
      modifies this`queueCreateInfos, this`enabledDeviceExtensions
      ensures queueCreateInfos == [QueueCreateInfo(queueFamilyIndex, 2, 0)]
      ensures QueueRequested(queueCreateInfos, QueueRef(queueFamilyIndex, 0))
              && QueueRequested(queueCreateInfos, QueueRef(queueFamilyIndex, 1))
      ensures enabledDeviceExtensions == validation.deviceExtensionNameList
    {
      queueCreateInfos := FindQueue(queueFamilyIndex);
      enabledDeviceExtensions := validation.deviceExtensionNameList;
      assert QueueRequested(queueCreateInfos, QueueRef(queueFamilyIndex, 0));
    }

    /** The rest of `Init` once the physical device is chosen (`device` is what the queries
        report for it): choose the queue family with the corrected test, create the logical
        device, retrieve queue 0 as the graphics queue and queue 1 as the compute queue, and
        choose the depth format. Each `assert` that fails stops the program there. */
    method SetUpDeviceAndQueues(device: PhysicalDeviceInfo) returns (r: Outcome)
      modifies this`queueFamilyIndex, this`queueCreateInfos, this`enabledDeviceExtensions,
               this`graphicsQueue, this`computeQueue, this`depthFormat
      ensures r == Pass <==> IntendedQueueFamilyIndex(device.queueFamilyFlags).Some?
                             && BestDepthFormat(device.optimalTilingFeatures).Some?
      ensures r.Fail? ==> r.failure == AssertionFailed
      ensures r == Pass ==> Some(queueFamilyIndex) == IntendedQueueFamilyIndex(device.queueFamilyFlags)
      ensures r == Pass ==> var flags := device.queueFamilyFlags[queueFamilyIndex];
                            flags & QueueGraphicsBit != 0 && flags & QueueComputeBit != 0
      ensures r == Pass ==> graphicsQueue == Some(QueueRef(queueFamilyIndex, 0))
                            && computeQueue == Some(QueueRef(queueFamilyIndex, 1))
      ensures r == Pass ==> QueueRequested(queueCreateInfos, graphicsQueue.value)
                            && QueueRequested(queueCreateInfos, computeQueue.value)
      ensures r == Pass ==> enabledDeviceExtensions == validation.deviceExtensionNameList
      ensures r == Pass ==> Some(depthFormat) == BestDepthFormat(device.optimalTilingFeatures)
    {
      var family := IntendedQueueFamilyIndex(device.queueFamilyFlags);
      if family.None? {
        return Fail(AssertionFailed);
      }
      queueFamilyIndex := family.value;
      CreateLogicalDevice(queueFamilyIndex);
      graphicsQueue := Some(QueueRef(queueFamilyIndex, 0));
      computeQueue := Some(QueueRef(queueFamilyIndex, 1));
      var ok := FindBestDepthFormat(device.optimalTilingFeatures);
      if !ok {
        return Fail(AssertionFailed);
      }
      r := Pass;
    }

    /** `Init` without instance creation: choose the physical device, set up the debug
        messenger, then `SetUpDeviceAndQueues`. `devices` is what the enumeration reports
        and `availableProcs` the instance entry points that resolve. The surface and the
        validation lists are left as they were. */
    method Init(devices: seq<PhysicalDeviceInfo>, availableProcs: set<string>) returns (r: Outcome)
      requires physicalDevice.None?
      modifies this, validation
      ensures r == Pass <==> InitSucceeds(devices, validation.debugBuild, availableProcs)
      ensures r.Fail? ==> r.failure == AssertionFailed || r.failure == NullFunctionCall
      ensures r.Fail? && r.failure == NullFunctionCall ==>
                validation.debugBuild && Validation.CreateMessengerProc !in availableProcs
      ensures physicalDevice == PreferredDevice(DeviceTypes(devices))
      ensures r == Pass ==> physicalDevice.Some? && physicalDevice.value < |devices|
      ensures r == Pass ==>
                Some(queueFamilyIndex) == IntendedQueueFamilyIndex(devices[physicalDevice.value].queueFamilyFlags)
      ensures r == Pass ==>
                var flags := devices[physicalDevice.value].queueFamilyFlags[queueFamilyIndex];
                flags & QueueGraphicsBit != 0 && flags & QueueComputeBit != 0
      ensures r == Pass ==> graphicsQueue == Some(QueueRef(queueFamilyIndex, 0))
                            && computeQueue == Some(QueueRef(queueFamilyIndex, 1))
      ensures r == Pass ==> QueueRequested(queueCreateInfos, graphicsQueue.value)
                            && QueueRequested(queueCreateInfos, computeQueue.value)
      ensures r == Pass ==> Some(depthFormat) == BestDepthFormat(devices[physicalDevice.value].optimalTilingFeatures)
      ensures r == Pass ==> enabledDeviceExtensions == validation.deviceExtensionNameList
      ensures r == Pass && validation.debugBuild ==> validation.messengerCreateCalled
      ensures validation == old(validation) && validation.debugBuild == old(validation.debugBuild)
      ensures surfaceWidth == old(surfaceWidth) && surfaceHeight == old(surfaceHeight)
              && surfaceFormat == old(surfaceFormat)
      ensures validation.instanceLayerNameList == old(validation.instanceLayerNameList)
              && validation.instanceExtensionNameList == old(validation.instanceExtensionNameList)
              && validation.deviceLayerNameList == old(validation.deviceLayerNameList)
              && validation.deviceExtensionNameList == old(validation.deviceExtensionNameList)
              && validation.messengerCreateInfo == old(validation.messengerCreateInfo)
    {
      var types := DeviceTypes(devices);
      var ok := GetPhysicalDevice(types);
      if !ok {
        return Fail(AssertionFailed);
      }
      r := validation.InitDebug(availableProcs);
      if r.Fail? {
        return;
      }
      r := SetUpDeviceAndQueues(devices[physicalDevice.value]);
    }
  }
}
