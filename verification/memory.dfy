/** Memory-type matching and image creation (Utils.cpp). The physical device's memory
    properties and an object's memory requirements are results of foreign queries, so
    they are inputs here; what is modelled is the search over them and the allocation
    request that is built from the result. The host-coherent search is given twice:
    `FindHostCoherentMemoryType` as the source writes it, and `IntendedHostCoherentType`, the
    corrected search that `AllocateHostCoherentMemory` uses. */
module Memory {
  import opened Vk

  /** `VkMemoryPropertyFlagBits`. */
  const MemoryPropertyDeviceLocal: bv32 := 0x1
  const MemoryPropertyHostVisible: bv32 := 0x2
  const MemoryPropertyHostCoherent: bv32 := 0x4
  const MemoryPropertyHostCached: bv32 := 0x8

  /** The mask the host-coherent search tests against. */
  const HostFlags: bv32 := MemoryPropertyHostVisible | MemoryPropertyHostCoherent

  /** `VK_MAX_MEMORY_TYPES`: the size of the `memoryTypes` array. */
  const MaxMemoryTypes: int := 32

  /** The property flags of `memoryTypes[0 .. memoryTypeCount)`. */
  type MemoryTypeFlags = s: seq<bv32> | |s| <= MaxMemoryTypes witness []

  /** `VkMemoryRequirements`. */
  datatype MemoryRequirements = MemoryRequirements(size: nat, alignment: nat, memoryTypeBits: bv32)

  /** `VkMemoryAllocateInfo`. */
  datatype MemoryAllocateInfo = MemoryAllocateInfo(allocationSize: nat, memoryTypeIndex: nat)

  datatype ImageType = Image1D | Image2D | Image3D
  datatype ImageTiling = TilingOptimal | TilingLinear
  datatype SharingMode = SharingExclusive | SharingConcurrent

  /** `VkImageCreateInfo`, the fields `CreateImage` sets. */
  datatype ImageCreateInfo = ImageCreateInfo(
    imageType: ImageType, width: nat, height: nat, depth: nat,
    mipLevels: nat, arrayLayers: nat, format: int, tiling: ImageTiling,
    initialLayout: ImageLayout, usage: bv32, samples: nat, sharingMode: SharingMode)

  /** What `CreateImage` hands to the driver: the image's create-info and the request for
      the memory bound to it. */
  datatype ImageWithMemory = ImageWithMemory(image: ImageCreateInfo, memory: MemoryAllocateInfo)

  /** Bit `i` of `memoryTypeBits` is set: the object may live in memory type `i`. */
  predicate TypeAllowed(memoryTypeBits: bv32, i: nat)
    requires i < MaxMemoryTypes
  {
    memoryTypeBits & (1 << i) != 0
  }

  /** Memory type `i` passes both tests of a search: its bit is set in `memoryTypeBits`, and
      its property flags satisfy `accept`. */
  predicate Fits(memoryTypeBits: bv32, types: MemoryTypeFlags, accept: bv32 -> bool, i: nat)
    requires i < |types|
  {
    TypeAllowed(memoryTypeBits, i) && accept(types[i])
  }

  /** The smallest index at or after `from` that fits, if any. */
  function FirstFitting(memoryTypeBits: bv32, types: MemoryTypeFlags, accept: bv32 -> bool, from: nat): (r: Option<nat>)
    requires from <= |types|
    decreases |types| - from
    ensures r.Some? ==> from <= r.value < |types| && Fits(memoryTypeBits, types, accept, r.value)
    ensures r.Some? ==> forall j :: from <= j < r.value ==> !Fits(memoryTypeBits, types, accept, j)
    ensures r.None? ==> forall j :: from <= j < |types| ==> !Fits(memoryTypeBits, types, accept, j)
  {
    if from == |types| then None
    else if Fits(memoryTypeBits, types, accept, from) then Some(from)
    else FirstFitting(memoryTypeBits, types, accept, from + 1)
  }

  /** The host-coherent search's flag test: the flags share at least one bit with
      HOST_VISIBLE | HOST_COHERENT. */
  predicate IntersectsHostFlags(flags: bv32)
  {
    flags & HostFlags != 0
  }

  /** The device-local search's flag test. */
  predicate IsDeviceLocal(flags: bv32)
  {
    flags & MemoryPropertyDeviceLocal != 0
  }

  /** `std::max(bufferSize, memoryRequirements.size)`. */
  function AllocationSize(bufferSize: nat, requiredSize: nat): (size: nat)
    ensures size >= bufferSize && size >= requiredSize
    ensures size == bufferSize || size == requiredSize
  {
    if bufferSize < requiredSize then requiredSize else bufferSize
  }

  /** The search loop of `AllocateHostCoherentMemory` as written: the first memory type whose
      bit is set in `memoryTypeBits` and whose flags intersect HOST_VISIBLE | HOST_COHERENT.
      This is the as-written half of the defect that `NonCoherentTypeAccepted` exhibits;
      `AllocateHostCoherentMemory` uses the corrected `IntendedHostCoherentType` instead, so
      nothing calls this method. */
  method FindHostCoherentMemoryType(types: MemoryTypeFlags, memoryTypeBits: bv32) returns (memIndex: Option<nat>)
    ensures memIndex == FirstFitting(memoryTypeBits, types, IntersectsHostFlags, 0)
    ensures memIndex.Some? ==> memIndex.value < |types| && types[memIndex.value] & HostFlags != 0
  {
    memIndex := None;
    var i := 0;
    while i < |types|
      invariant 0 <= i <= |types|
      invariant FirstFitting(memoryTypeBits, types, IntersectsHostFlags, i)
                == FirstFitting(memoryTypeBits, types, IntersectsHostFlags, 0)
    {
      var bit: bv32 := 1 << i;
      if memoryTypeBits & bit == 0 {
        i := i + 1;
        continue;
      }
      if types[i] & HostFlags != 0 {
        memIndex := Some(i);
        break;
      }
      i := i + 1;
    }
  }

  /** `AllocateHostCoherentMemory`: the allocation request handed to `vkAllocateMemory`,
      with the memory type chosen by the corrected test (both HOST_VISIBLE and
      HOST_COHERENT; `FindHostCoherentMemoryType` is the search as written). When no memory
      type qualifies, `assert(memIndex.has_value())` fails. */
  method AllocateHostCoherentMemory(types: MemoryTypeFlags, bufferSize: nat, requirements: MemoryRequirements)
    returns (r: Result<MemoryAllocateInfo>)
    ensures r.Err? <==> IntendedHostCoherentType(types, requirements.memoryTypeBits).None?
    ensures r.Err? ==> r.failure == AssertionFailed
    ensures r.Ok? ==> r.value.memoryTypeIndex == IntendedHostCoherentType(types, requirements.memoryTypeBits).value
    ensures r.Ok? ==> r.value.memoryTypeIndex < |types|
                      && types[r.value.memoryTypeIndex] & MemoryPropertyHostVisible != 0
                      && types[r.value.memoryTypeIndex] & MemoryPropertyHostCoherent != 0
    ensures r.Ok? ==> r.value.allocationSize >= bufferSize && r.value.allocationSize >= requirements.size
    ensures r.Ok? ==> r.value.allocationSize == bufferSize || r.value.allocationSize == requirements.size
  {
    var memIndex := IntendedHostCoherentType(types, requirements.memoryTypeBits);
    if memIndex.None? {
      return Err(AssertionFailed);
    }
    r := Ok(MemoryAllocateInfo(AllocationSize(bufferSize, requirements.size), memIndex.value));
  }

  /** The search lambda of `CreateImage`: the first memory type whose bit is set in
      `memoryTypeBits` and that is DEVICE_LOCAL; it throws when there is none. */
  method FindDeviceLocalMemoryType(types: MemoryTypeFlags, memoryTypeBits: bv32) returns (r: Result<nat>)
    ensures r.Ok? <==> FirstFitting(memoryTypeBits, types, IsDeviceLocal, 0).Some?
    ensures r.Ok? ==> r.value == FirstFitting(memoryTypeBits, types, IsDeviceLocal, 0).value
    ensures r.Ok? ==> r.value < |types| && types[r.value] & MemoryPropertyDeviceLocal != 0
    ensures r.Err? ==> r.failure == RuntimeError("Couldn't find suitable memory.")
  {
    var i := 0;
    while i < |types|
      invariant 0 <= i <= |types|
      invariant FirstFitting(memoryTypeBits, types, IsDeviceLocal, i)
                == FirstFitting(memoryTypeBits, types, IsDeviceLocal, 0)
    {
      var bit: bv32 := 1 << i;
      if memoryTypeBits & bit == 0 {
        i := i + 1;
        continue;
      }
      if types[i] & MemoryPropertyDeviceLocal != 0 {
        return Ok(i);
      }
      i := i + 1;
    }
    return Err(RuntimeError("Couldn't find suitable memory."));
  }

  /** `CreateImage`: a single-sample, optimally tiled 2D image of one mip level and one
      layer, and a request for exactly `memReq.size` bytes of the first device-local memory
      type the image allows. `requirements` is what `vkGetImageMemoryRequirements` reports
      for the new image. */
  method CreateImage(width: nat, height: nat, format: int, usage: bv32,
                     requirements: MemoryRequirements, types: MemoryTypeFlags)
    returns (r: Result<ImageWithMemory>)
    ensures r.Err? <==> FirstFitting(requirements.memoryTypeBits, types, IsDeviceLocal, 0).None?
    ensures r.Err? ==> r.failure == RuntimeError("Couldn't find suitable memory.")
    ensures r.Ok? ==> r.value.image == ImageCreateInfo(Image2D, width, height, 1, 1, 1, format,
                                                        TilingOptimal, LayoutUndefined, usage, 1,
                                                        SharingExclusive)
    ensures r.Ok? ==> r.value.memory.allocationSize == requirements.size
    ensures r.Ok? ==> r.value.memory.memoryTypeIndex
                      == FirstFitting(requirements.memoryTypeBits, types, IsDeviceLocal, 0).value
  {
    var createInfo := ImageCreateInfo(Image2D, width, height, 1, 1, 1, format,
                                      TilingOptimal, LayoutUndefined, usage, 1, SharingExclusive);
    var memoryTypeIndex := FindDeviceLocalMemoryType(types, requirements.memoryTypeBits);
    if memoryTypeIndex.Err? {
      return Err(memoryTypeIndex.failure);
    }
    r := Ok(ImageWithMemory(createInfo, MemoryAllocateInfo(requirements.size, memoryTypeIndex.value)));
  }

  /** A memory type whose bit is clear in `memoryTypeBits` is never chosen, whatever its
      flags. A corollary of `FirstFitting`'s own contract, stated on its own because it is
      the promise of the bit test in the source's search loops. */
  lemma {:induction false} DisallowedTypeNeverChosen(memoryTypeBits: bv32, types: MemoryTypeFlags,
                                                     accept: bv32 -> bool, from: nat, i: nat)
    requires from <= |types| && i < |types|
    requires !TypeAllowed(memoryTypeBits, i)
    ensures FirstFitting(memoryTypeBits, types, accept, from) != Some(i)
    decreases |types| - from
  {
    if from < |types| && !Fits(memoryTypeBits, types, accept, from) {
      DisallowedTypeNeverChosen(memoryTypeBits, types, accept, from + 1, i);
    }
  }

  // ---------------------------------------------------------------------------------
  // The host-coherent flag test as written, and the test its name promises.

  /** The flag test the host-coherent search evidently intends: the type is both
      HOST_VISIBLE and HOST_COHERENT. */
  predicate ContainsHostFlags(flags: bv32)
  {
    flags & HostFlags == HostFlags
  }

  /** The corrected host-coherent search: the first allowed memory type that is both
      HOST_VISIBLE and HOST_COHERENT. */
  function IntendedHostCoherentType(types: MemoryTypeFlags, memoryTypeBits: bv32): (r: Option<nat>)
    ensures r.Some? ==> r.value < |types| && TypeAllowed(memoryTypeBits, r.value)
                        && types[r.value] & MemoryPropertyHostVisible != 0
                        && types[r.value] & MemoryPropertyHostCoherent != 0
    ensures r.Some? ==> forall j :: 0 <= j < r.value ==> !Fits(memoryTypeBits, types, ContainsHostFlags, j)
    ensures r.None? ==> forall j :: 0 <= j < |types| ==> !Fits(memoryTypeBits, types, ContainsHostFlags, j)
  {
    var r := FirstFitting(memoryTypeBits, types, ContainsHostFlags, 0);
    if r.Some? then
      assert Fits(memoryTypeBits, types, ContainsHostFlags, r.value);
      var f := types[r.value];
      assert f & HostFlags == HostFlags;
      assert f & MemoryPropertyHostVisible != 0 && f & MemoryPropertyHostCoherent != 0;
      r
    else r
  }

  /** The search as written accepts a memory type that is HOST_VISIBLE but not
      HOST_COHERENT (a HOST_CACHED type): with memory types
      [HOST_VISIBLE | HOST_CACHED, HOST_VISIBLE | HOST_COHERENT] both allowed, the search
      picks type 0, which is not coherent, where the intended search picks type 1. */
  lemma NonCoherentTypeAccepted()
    ensures var types: MemoryTypeFlags := [MemoryPropertyHostVisible | MemoryPropertyHostCached,
                                           MemoryPropertyHostVisible | MemoryPropertyHostCoherent];
            && FirstFitting(0x3, types, IntersectsHostFlags, 0) == Some(0)
            && types[0] & MemoryPropertyHostCoherent == 0
            && IntendedHostCoherentType(types, 0x3) == Some(1)
  {
    var types: MemoryTypeFlags := [MemoryPropertyHostVisible | MemoryPropertyHostCached,
                                   MemoryPropertyHostVisible | MemoryPropertyHostCoherent];
    assert Fits(0x3, types, IntersectsHostFlags, 0);
    assert !Fits(0x3, types, ContainsHostFlags, 0);
    assert Fits(0x3, types, ContainsHostFlags, 1);
  }
}
