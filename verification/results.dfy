/** `ErrorCheck`, the check every Vulkan call result goes through. The same function is
    defined twice in the source (once in Utils.cpp, once in an anonymous namespace of
    VulkanManager.cpp); both bodies are identical and are modelled once here. */
module Results {
  import opened Vk

  /** `VkResult` values named by the check (numeric values of the Vulkan headers). */
  const Success: int := 0
  const ErrorOutOfHostMemory: int := -1
  const ErrorOutOfDeviceMemory: int := -2
  const ErrorInitializationFailed: int := -3
  const ErrorDeviceLost: int := -4
  const ErrorMemoryMapFailed: int := -5
  const ErrorLayerNotPresent: int := -6
  const ErrorExtensionNotPresent: int := -7
  const ErrorFeatureNotPresent: int := -8
  const ErrorIncompatibleDriver: int := -9
  const ErrorTooManyObjects: int := -10
  const ErrorFormatNotSupported: int := -11
  const ErrorSurfaceLost: int := -1000000000
  const ErrorNativeWindowInUse: int := -1000000001
  const Suboptimal: int := 1000001003
  const ErrorOutOfDate: int := -1000001004
  const ErrorIncompatibleDisplay: int := -1000003001
  const ErrorValidationFailed: int := -1000011001

  /** The cases of the `switch`, in source order, each with the line it prints. */
  const NamedResults: seq<(int, string)> := [
    (ErrorOutOfHostMemory, "VK_ERROR_OUT_OF_HOST_MEMORY"),
    (ErrorOutOfDeviceMemory, "VK_ERROR_OUT_OF_DEVICE_MEMORY"),
    (ErrorInitializationFailed, "VK_ERROR_INITIALIZATION_FAILED"),
    (ErrorDeviceLost, "VK_ERROR_DEVICE_LOST"),
    (ErrorMemoryMapFailed, "VK_ERROR_MEMORY_MAP_FAILED"),
    (ErrorLayerNotPresent, "VK_ERROR_LAYER_NOT_PRESENT"),
    (ErrorExtensionNotPresent, "VK_ERROR_EXTENSION_NOT_PRESENT"),
    (ErrorFeatureNotPresent, "VK_ERROR_FEATURE_NOT_PRESENT"),
    (ErrorIncompatibleDriver, "VK_ERROR_INCOMPATIBLE_DRIVER"),
    (ErrorTooManyObjects, "VK_ERROR_TOO_MANY_OBJECTS"),
    (ErrorFormatNotSupported, "VK_ERROR_FORMAT_NOT_SUPPORTED"),
    (ErrorSurfaceLost, "VK_ERROR_SURFACE_LOST_KHR"),
    (ErrorNativeWindowInUse, "VK_ERROR_NATIVE_WINDOW_IN_USE_KHR"),
    (Suboptimal, "VK_SUBOPTIMAL_KHR"),
    (ErrorOutOfDate, "VK_ERROR_OUT_OF_DATE_KHR"),
    (ErrorIncompatibleDisplay, "VK_ERROR_INCOMPATIBLE_DISPLAY_KHR"),
    (ErrorValidationFailed, "VK_ERROR_VALIDATION_FAILED_EXT")
  ]

  /** What a call to `ErrorCheck` does: nothing, or print a line (none for an unnamed
      code) and fail its assertion. */
  datatype CheckOutcome = Passed | Aborted(logged: Option<string>)

  /** The line the `switch` prints for `result`; `None` for the `default` case. */
  function ResultName(result: int): (name: Option<string>)
    ensures name.None? <==> forall k :: 0 <= k < |NamedResults| ==> NamedResults[k].0 != result
    ensures forall k :: 0 <= k < |NamedResults| && NamedResults[k].0 == result ==>
              name == Some(NamedResults[k].1)
  {
    // Each branch below is the case of the table entry with the same code.
    assert NamedResults[0].0 == ErrorOutOfHostMemory
        && NamedResults[1].0 == ErrorOutOfDeviceMemory
        && NamedResults[2].0 == ErrorInitializationFailed
        && NamedResults[3].0 == ErrorDeviceLost
        && NamedResults[4].0 == ErrorMemoryMapFailed
        && NamedResults[5].0 == ErrorLayerNotPresent
        && NamedResults[6].0 == ErrorExtensionNotPresent
        && NamedResults[7].0 == ErrorFeatureNotPresent
        && NamedResults[8].0 == ErrorIncompatibleDriver
        && NamedResults[9].0 == ErrorTooManyObjects
        && NamedResults[10].0 == ErrorFormatNotSupported
        && NamedResults[11].0 == ErrorSurfaceLost
        && NamedResults[12].0 == ErrorNativeWindowInUse
        && NamedResults[13].0 == Suboptimal
        && NamedResults[14].0 == ErrorOutOfDate
        && NamedResults[15].0 == ErrorIncompatibleDisplay
        && NamedResults[16].0 == ErrorValidationFailed;
    if result == ErrorOutOfHostMemory then Some("VK_ERROR_OUT_OF_HOST_MEMORY")
    else if result == ErrorOutOfDeviceMemory then Some("VK_ERROR_OUT_OF_DEVICE_MEMORY")
    else if result == ErrorInitializationFailed then Some("VK_ERROR_INITIALIZATION_FAILED")
    else if result == ErrorDeviceLost then Some("VK_ERROR_DEVICE_LOST")
    else if result == ErrorMemoryMapFailed then Some("VK_ERROR_MEMORY_MAP_FAILED")
    else if result == ErrorLayerNotPresent then Some("VK_ERROR_LAYER_NOT_PRESENT")
    else if result == ErrorExtensionNotPresent then Some("VK_ERROR_EXTENSION_NOT_PRESENT")
    else if result == ErrorFeatureNotPresent then Some("VK_ERROR_FEATURE_NOT_PRESENT")
    else if result == ErrorIncompatibleDriver then Some("VK_ERROR_INCOMPATIBLE_DRIVER")
    else if result == ErrorTooManyObjects then Some("VK_ERROR_TOO_MANY_OBJECTS")
    else if result == ErrorFormatNotSupported then Some("VK_ERROR_FORMAT_NOT_SUPPORTED")
    else if result == ErrorSurfaceLost then Some("VK_ERROR_SURFACE_LOST_KHR")
    else if result == ErrorNativeWindowInUse then Some("VK_ERROR_NATIVE_WINDOW_IN_USE_KHR")
    else if result == Suboptimal then Some("VK_SUBOPTIMAL_KHR")
    else if result == ErrorOutOfDate then Some("VK_ERROR_OUT_OF_DATE_KHR")
    else if result == ErrorIncompatibleDisplay then Some("VK_ERROR_INCOMPATIBLE_DISPLAY_KHR")
    else if result == ErrorValidationFailed then Some("VK_ERROR_VALIDATION_FAILED_EXT")
    else None
  }

  /** `ErrorCheck(result)`. Everything sits under `#ifdef _DEBUG`, so a release build
      (`debugBuild == false`) ignores every result. */
  function ErrorCheck(debugBuild: bool, result: int): (r: CheckOutcome)
    ensures r.Aborted? <==> debugBuild && result < 0
    ensures r.Aborted? ==> r.logged == ResultName(result)
  {
    if debugBuild && result < 0 then Aborted(ResultName(result)) else Passed
  }

  /** Success and every positive status pass silently, in either build. */
  lemma NonNegativeResultsPass(debugBuild: bool, result: int)
    requires result >= 0
    ensures ErrorCheck(debugBuild, result) == Passed
  {
  }

  /** The `VK_SUBOPTIMAL_KHR` case of the `switch` is dead: that code is positive, and the
      `switch` is only reached for negative codes, so its line is never printed. */
  lemma SuboptimalNeverLogged(debugBuild: bool, result: int)
    ensures ErrorCheck(debugBuild, result) != Aborted(Some("VK_SUBOPTIMAL_KHR"))
  {
  }

  /** Every logged line names the code that failed: distinct failing codes never print the
      same line. */
  lemma LoggedNameIdentifiesCode(debugBuild: bool, a: int, b: int)
    requires ErrorCheck(debugBuild, a).Aborted? && ErrorCheck(debugBuild, a).logged.Some?
    requires ErrorCheck(debugBuild, a) == ErrorCheck(debugBuild, b)
    ensures a == b
  {
  }
}
