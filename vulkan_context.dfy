/**
 * VulkanContext: which device extensions are asked for, which physical
 * device is picked, which queue families serve graphics, compute and
 * presentation, how the queues are filed by type, and how large the
 * descriptor pool is.
 *
 * A physical device is described by the answers the driver gives about
 * it (its type, its extension names, its surface formats and present
 * modes for the one surface, and its queue families); the Vulkan calls
 * that produce those answers are not modelled.
 */
module Devices {
  import opened Wrappers

  const PortabilityEnumeration := "VK_KHR_portability_enumeration"
  const PortabilitySubset := "VK_KHR_portability_subset"
  const DynamicRendering := "VK_KHR_dynamic_rendering"
  const NonSemanticInfo := "VK_KHR_shader_non_semantic_info"
  const DebugUtils := "VK_EXT_debug_utils"
  const Swapchain := "VK_KHR_swapchain"

  const InvalidDeviceId := "Invalid physical device id"
  const BadOptionalAccess := "std::bad_optional_access"

  datatype DeviceType = DiscreteGpu | IntegratedGpu | VirtualGpu | Cpu | OtherDevice

  /** One queue family: its graphics and compute flags, and whether it can present to the surface. */
  datatype QueueFamily = QueueFamily(graphics: bool, compute: bool, surfaceSupport: bool)

  datatype PhysicalDevice = PhysicalDevice(
    deviceType: DeviceType,
    extensions: seq<string>,
    surfaceFormats: nat,
    presentModes: nat,
    queueFamilies: seq<QueueFamily>)

  /** The driver's uint8_t device id. */
  type DeviceId = i: int | 0 <= i < 256

  // --------------------------------------------------------- suitability

  /**
   * isDeviceSuitable: every required extension is supported, and when a
   * surface is given it has at least one format and one present mode.
   */
  predicate Suitable(required: seq<string>, d: PhysicalDevice, hasSurface: bool)
  {
    (forall i :: 0 <= i < |required| ==> required[i] in d.extensions)
    && (hasSurface ==> d.surfaceFormats > 0 && d.presentModes > 0)
  }

  /** The suitable devices, in enumeration order. */
  function SuitableDevices(required: seq<string>, ds: seq<PhysicalDevice>, hasSurface: bool): (r: seq<PhysicalDevice>)
    ensures |r| <= |ds|
    ensures forall i :: 0 <= i < |r| ==> r[i] in ds && Suitable(required, r[i], hasSurface)
  {
    if ds == [] then []
    else
      var init := SuitableDevices(required, ds[..|ds| - 1], hasSurface);
      if Suitable(required, ds[|ds| - 1], hasSurface) then init + [ds[|ds| - 1]] else init
  }

  /** The first discrete GPU of ds, or its first entry when there is none. */
  function Preferred(ds: seq<PhysicalDevice>): PhysicalDevice
    requires ds != []
  {
    if exists i :: 0 <= i < |ds| && ds[i].deviceType == DiscreteGpu then FirstDiscrete(ds) else ds[0]
  }

  function FirstDiscrete(ds: seq<PhysicalDevice>): (d: PhysicalDevice)
    requires exists i :: 0 <= i < |ds| && ds[i].deviceType == DiscreteGpu
    ensures d in ds && d.deviceType == DiscreteGpu
  {
    if ds[0].deviceType == DiscreteGpu then ds[0]
    else
      assert exists i :: 0 <= i < |ds[1..]| && ds[1..][i].deviceType == DiscreteGpu by {
        var i :| 0 <= i < |ds| && ds[i].deviceType == DiscreteGpu;
        assert ds[1..][i - 1] == ds[i];
      }
      FirstDiscrete(ds[1..])
  }

  /** A device is among the suitable ones exactly when it is enumerated and suitable. */
  lemma {:induction false} SuitableDevicesExact(required: seq<string>, ds: seq<PhysicalDevice>, hasSurface: bool, d: PhysicalDevice)
    ensures d in SuitableDevices(required, ds, hasSurface) <==> d in ds && Suitable(required, d, hasSurface)
  {
    if ds != [] {
      var init := ds[..|ds| - 1];
      SuitableDevicesExact(required, init, hasSurface, d);
      assert ds == init + [ds[|ds| - 1]];
    }
  }

  /**
   * The automatic choice is suitable; it is a discrete GPU whenever some
   * suitable device is one, and otherwise the first suitable device.
   */
  lemma AutomaticChoice(required: seq<string>, ds: seq<PhysicalDevice>, hasSurface: bool)
    requires SuitableDevices(required, ds, hasSurface) != []
    ensures var s := SuitableDevices(required, ds, hasSurface);
      var d := Preferred(s);
      d in ds && Suitable(required, d, hasSurface)
      && ((exists e :: e in s && e.deviceType == DiscreteGpu) <==> d.deviceType == DiscreteGpu)
      && (d.deviceType != DiscreteGpu ==> d == s[0])
  {
    var s := SuitableDevices(required, ds, hasSurface);
    var d := Preferred(s);
    if exists e :: e in s && e.deviceType == DiscreteGpu {
      var e :| e in s && e.deviceType == DiscreteGpu;
      var i :| 0 <= i < |s| && s[i] == e;
      assert s[i].deviceType == DiscreteGpu;
    }
  }

  // ------------------------------------------------------- queue families

  datatype QueueFamilyIndices = QueueFamilyIndices(
    graphicsFamily: Option<nat>, computeFamily: Option<nat>, presentFamily: Option<nat>)

  /**
   * QueueFamilyIndices::isComplete, whose definition VulkanContext.h does
   * not show here: all three families are set.
   */
  predicate IsComplete(q: QueueFamilyIndices)
  {
    q.graphicsFamily.Some? && q.computeFamily.Some? && q.presentFamily.Some?
  }

  /** One loop turn of findQueueFamilies at family i: each matching role takes index i. */
  function RecordFamily(q: QueueFamilyIndices, f: QueueFamily, i: nat, hasSurface: bool): QueueFamilyIndices
  {
    q.(graphicsFamily := if f.graphics then Some(i) else q.graphicsFamily,
       computeFamily := if f.compute then Some(i) else q.computeFamily,
       presentFamily := if hasSurface && f.surfaceSupport then Some(i) else q.presentFamily)
  }

  /** findQueueFamilies from family i on: record, then stop as soon as the indices are complete. */
  function ScanFamilies(fs: seq<QueueFamily>, hasSurface: bool, i: nat, q: QueueFamilyIndices): QueueFamilyIndices
    requires i <= |fs|
    decreases |fs| - i
  {
    if i == |fs| then q
    else
      var q' := RecordFamily(q, fs[i], i, hasSurface);
      if IsComplete(q') then q' else ScanFamilies(fs, hasSurface, i + 1, q')
  }

  const NoFamilies := QueueFamilyIndices(None, None, None)

  function QueueFamiliesOf(fs: seq<QueueFamily>, hasSurface: bool): QueueFamilyIndices
  {
    ScanFamilies(fs, hasSurface, 0, NoFamilies)
  }

  /** Indices that only name families of the right kind. */
  predicate Sound(fs: seq<QueueFamily>, hasSurface: bool, q: QueueFamilyIndices)
  {
    && (q.graphicsFamily.Some? ==> q.graphicsFamily.value < |fs| && fs[q.graphicsFamily.value].graphics)
    && (q.computeFamily.Some? ==> q.computeFamily.value < |fs| && fs[q.computeFamily.value].compute)
    && (q.presentFamily.Some? ==> hasSurface && q.presentFamily.value < |fs| && fs[q.presentFamily.value].surfaceSupport)
  }

  /** Indices that have a role set once some family seen so far (below i) could fill it. */
  predicate Covers(fs: seq<QueueFamily>, hasSurface: bool, i: nat, q: QueueFamilyIndices)
    requires i <= |fs|
  {
    && (forall j :: 0 <= j < i && fs[j].graphics ==> q.graphicsFamily.Some?)
    && (forall j :: 0 <= j < i && fs[j].compute ==> q.computeFamily.Some?)
    && (forall j :: 0 <= j < i && hasSurface && fs[j].surfaceSupport ==> q.presentFamily.Some?)
  }

  /**
   * Recording family i keeps every recorded role right and extends the
   * roles covered to the families below i + 1.
   */
  lemma RecordFamilyStep(fs: seq<QueueFamily>, hasSurface: bool, i: nat, q: QueueFamilyIndices)
    requires i < |fs|
    requires Sound(fs, hasSurface, q) && Covers(fs, hasSurface, i, q)
    ensures var q' := RecordFamily(q, fs[i], i, hasSurface);
      Sound(fs, hasSurface, q') && Covers(fs, hasSurface, i + 1, q')
  {
  }

  lemma {:induction false} ScanFamiliesCorrect(fs: seq<QueueFamily>, hasSurface: bool, i: nat, q: QueueFamilyIndices)
    requires i <= |fs|
    requires Sound(fs, hasSurface, q) && Covers(fs, hasSurface, i, q)
    ensures var r := ScanFamilies(fs, hasSurface, i, q);
      Sound(fs, hasSurface, r) && Covers(fs, hasSurface, |fs|, r)
    decreases |fs| - i
  {
    if i < |fs| {
      var q' := RecordFamily(q, fs[i], i, hasSurface);
      RecordFamilyStep(fs, hasSurface, i, q);
      if !IsComplete(q') {
        ScanFamiliesCorrect(fs, hasSurface, i + 1, q');
      }
    }
  }

  /**
   * findQueueFamilies names only families of the right kind, and leaves a
   * role unset only when no family of the device can fill it.
   */
  lemma QueueFamiliesCorrect(fs: seq<QueueFamily>, hasSurface: bool)
    ensures Sound(fs, hasSurface, QueueFamiliesOf(fs, hasSurface))
    ensures var q := QueueFamiliesOf(fs, hasSurface);
      && (q.graphicsFamily.None? <==> forall j :: 0 <= j < |fs| ==> !fs[j].graphics)
      && (q.computeFamily.None? <==> forall j :: 0 <= j < |fs| ==> !fs[j].compute)
      && (q.presentFamily.None? <==> forall j :: 0 <= j < |fs| ==> !(hasSurface && fs[j].surfaceSupport))
  {
    ScanFamiliesCorrect(fs, hasSurface, 0, NoFamilies);
  }

  /** Without a surface no family is ever complete, so every family is scanned and the last match of each role wins. */
  lemma {:induction false} NoSurfaceTakesLastMatch(fs: seq<QueueFamily>, i: nat, q: QueueFamilyIndices, j: nat)
    requires i <= j < |fs| && q.presentFamily.None?
    requires fs[j].graphics
    requires forall k :: j < k < |fs| ==> !fs[k].graphics
    ensures ScanFamilies(fs, false, i, q).graphicsFamily == Some(j)
    decreases |fs| - i
  {
    var q' := RecordFamily(q, fs[i], i, false);
    if i < j {
      NoSurfaceTakesLastMatch(fs, i + 1, q', j);
    } else {
      NoSurfaceKeepsGraphics(fs, i + 1, q');
    }
  }

  lemma {:induction false} NoSurfaceKeepsGraphics(fs: seq<QueueFamily>, i: nat, q: QueueFamilyIndices)
    requires i <= |fs| && q.presentFamily.None?
    requires forall k :: i <= k < |fs| ==> !fs[k].graphics
    ensures ScanFamilies(fs, false, i, q).graphicsFamily == q.graphicsFamily
    decreases |fs| - i
  {
    if i < |fs| {
      NoSurfaceKeepsGraphics(fs, i + 1, RecordFamily(q, fs[i], i, false));
    }
  }

  /** A single family that does everything is taken for all three roles at once, and the scan stops there. */
  lemma StopsAtFirstCompleteFamily(fs: seq<QueueFamily>)
    requires |fs| > 0 && fs[0] == QueueFamily(true, true, true)
    ensures QueueFamiliesOf(fs, true) == QueueFamilyIndices(Some(0), Some(0), Some(0))
  {
  }

  // --------------------------------------------------------------- queues

  datatype QueueType = Graphics | Compute | Present

  /** A Queue entry: the types it serves, its family, and its index within the family. */
  datatype Queue = Queue(types: set<QueueType>, family: nat, index: nat)

  /** The family index the indices give to a queue type (all three are set). */
  function FamilyOf(g: nat, c: nat, p: nat, t: QueueType): nat
  {
    match t
    case Graphics => g
    case Compute => c
    case Present => p
  }

  /** Insertion into a strictly increasing sequence: std::set<uint32_t>::insert. */
  function Insert(s: seq<nat>, x: nat): (r: seq<nat>)
    requires forall i, j :: 0 <= i < j < |s| ==> s[i] < s[j]
    ensures forall i, j :: 0 <= i < j < |r| ==> r[i] < r[j]
    ensures forall y :: y in r <==> y in s || y == x
    ensures |s| <= |r| <= |s| + 1
  {
    if s == [] then [x]
    else if x < s[0] then [x] + s
    else if x == s[0] then s
    else
      var t := Insert(s[1..], x);
      assert forall y :: y in s <==> y == s[0] || y in s[1..];
      assert forall k :: 0 <= k < |t| ==> t[k] > s[0] by {
        forall k | 0 <= k < |t|
          ensures t[k] > s[0]
        {
          assert t[k] in t;
          if t[k] != x {
            var m :| 0 <= m < |s[1..]| && s[1..][m] == t[k];
            assert s[m + 1] == t[k];
          }
        }
      }
      [s[0]] + t
  }

  /** The distinct families of the three roles in ascending order: the iteration order of uniqueQueueFamilies. */
  function UniqueFamilies(g: nat, c: nat, p: nat): (r: seq<nat>)
    ensures forall i, j :: 0 <= i < j < |r| ==> r[i] < r[j]
    ensures forall y :: y in r <==> y == g || y == c || y == p
    ensures 1 <= |r| <= 3
  {
    Insert(Insert([g], c), p)
  }

  /** The types whose family is f. */
  function TypesOf(g: nat, c: nat, p: nat, f: nat): (ts: set<QueueType>)
    ensures forall t :: t in ts <==> FamilyOf(g, c, p, t) == f
  {
    (if g == f then {Graphics} else {}) + (if c == f then {Compute} else {}) + (if p == f then {Present} else {})
  }

  /** Descriptor pool contents: how many descriptors of each kind, and how many sets. */
  datatype DescriptorPool = DescriptorPool(uniformBuffers: nat, storageBuffers: nat, storageImages: nat, maxSets: nat)

  // -------------------------------------------------------------- context

  class VulkanContext {
    var instanceExtensions: seq<string>
    var deviceExtensions: seq<string>
    const validationLayersEnabled: bool
    /** Whether a surface was handed to selectPhysicalDevice (this->surface has a value). */
    var hasSurface: bool
    var physicalDevice: Option<PhysicalDevice>
    var queues: map<QueueType, Queue>
    var queueCreateFamilies: seq<nat>
    var descriptorPool: Option<DescriptorPool>

    /**
     * VulkanContext(instance_extensions, device_extensions, validation).
     * portability stands for an Apple build without Metal, which asks for
     * the portability extensions first. Dynamic rendering is always
     * required; validation adds the non-semantic-info device extension and
     * the debug-utils instance extension, pushed twice.
     */
    constructor (instanceExts: seq<string>, deviceExts: seq<string>, validation: bool, portability: bool)
      ensures validationLayersEnabled == validation
      ensures instanceExtensions == instanceExts + (if portability then [PortabilityEnumeration] else [])
                                                 + (if validation then [DebugUtils, DebugUtils] else [])
      ensures deviceExtensions == deviceExts + (if portability then [PortabilitySubset] else []) + [DynamicRendering]
                                             + (if validation then [NonSemanticInfo] else [])
      ensures !hasSurface && physicalDevice.None? && queues == map[] && queueCreateFamilies == [] && descriptorPool.None?
    {
      instanceExtensions := instanceExts + (if portability then [PortabilityEnumeration] else []);
      deviceExtensions := deviceExts + (if portability then [PortabilitySubset] else []);
      validationLayersEnabled := validation;
      hasSurface := false;
      physicalDevice := None;
      queues := map[];
      queueCreateFamilies := [];
      descriptorPool := None;
      new;
      deviceExtensions := deviceExtensions + [DynamicRendering];
      if validation {
        deviceExtensions := deviceExtensions + [NonSemanticInfo];
        instanceExtensions := instanceExtensions + [DebugUtils];
        instanceExtensions := instanceExtensions + [DebugUtils];
      }
    }

    /** isDeviceSuitable (VulkanContext.cpp:141-166): the loop over the required extensions, then the surface check. */
    method IsDeviceSuitable(device: PhysicalDevice, surface: bool) returns (ok: bool)
      ensures ok <==> Suitable(deviceExtensions, device, surface)
    {
      for i := 0 to |deviceExtensions|
        invariant forall k :: 0 <= k < i ==> deviceExtensions[k] in device.extensions
      {
        if deviceExtensions[i] !in device.extensions {
          return false;
        }
      }
      if surface && (device.surfaceFormats == 0 || device.presentModes == 0) {
        return false;
      }
      return true;
    }

    /**
     * selectPhysicalDevice (VulkanContext.cpp:168-228). A surface adds the
     * swapchain extension to the requirements. An explicit id picks that
     * device unchecked, or throws when it is out of range. Otherwise the
     * first discrete GPU among the suitable devices wins, else the first
     * suitable one; the source indexes the suitable list unguarded, so
     * one must exist.
     */
    method SelectPhysicalDevice(devices: seq<PhysicalDevice>, id: Option<DeviceId>, surface: bool) returns (r: Result<()>)
      requires id.None? ==> SuitableDevices(deviceExtensions + (if surface then [Swapchain] else []), devices, surface) != []
      modifies this
      ensures deviceExtensions == old(deviceExtensions) + (if surface then [Swapchain] else [])
      ensures hasSurface == (surface || old(hasSurface))
      ensures id.Some? && id.value >= |devices| ==> r == Err(InvalidDeviceId) && physicalDevice == old(physicalDevice)
      ensures id.Some? && id.value < |devices| ==> r == Ok(()) && physicalDevice == Some(devices[id.value])
      ensures id.None? ==> r == Ok(()) && physicalDevice == Some(Preferred(SuitableDevices(deviceExtensions, devices, surface)))
      ensures instanceExtensions == old(instanceExtensions) && queues == old(queues)
      ensures queueCreateFamilies == old(queueCreateFamilies) && descriptorPool == old(descriptorPool)
    {
      ghost var required := deviceExtensions + (if surface then [Swapchain] else []);
      if surface {
        hasSurface := true;
        deviceExtensions := deviceExtensions + [Swapchain];
      } else {
        assert required == deviceExtensions;
      }
      if id.Some? {
        if |devices| <= id.value {
          return Err(InvalidDeviceId);
        }
        physicalDevice := Some(devices[id.value]);
        return Ok(());
      }
      var suitable: seq<PhysicalDevice> := [];
      label Filtering:
      for i := 0 to |devices|
        invariant unchanged@Filtering(this)
        invariant suitable == SuitableDevices(deviceExtensions, devices[..i], surface)
      {
        assert devices[..i + 1][..i] == devices[..i];
        var ok := IsDeviceSuitable(devices[i], surface);
        if ok {
          suitable := suitable + [devices[i]];
        }
      }
      assert devices[..|devices|] == devices;
      var chosen := suitable[0];
      var i := 0;
      while i < |suitable|
        invariant 0 <= i <= |suitable|
        invariant forall k :: 0 <= k < i ==> suitable[k].deviceType != DiscreteGpu
        invariant chosen == suitable[0]
      {
        if suitable[i].deviceType == DiscreteGpu {
          chosen := suitable[i];
          FirstDiscreteAt(suitable, i);
          break;
        }
        i := i + 1;
      }
      physicalDevice := Some(chosen);
      r := Ok(());
    }

    /** findQueueFamilies (VulkanContext.cpp:230-252) over the selected device's families. */
    method FindQueueFamilies() returns (indices: QueueFamilyIndices)
      requires physicalDevice.Some?
      ensures indices == QueueFamiliesOf(physicalDevice.value.queueFamilies, hasSurface)
    {
      var fs := physicalDevice.value.queueFamilies;
      indices := NoFamilies;
      var i := 0;
      while i < |fs|
        invariant 0 <= i <= |fs|
        invariant QueueFamiliesOf(fs, hasSurface) == ScanFamilies(fs, hasSurface, i, indices)
        decreases |fs| - i
      {
        if fs[i].graphics {
          indices := indices.(graphicsFamily := Some(i));
        }
        if fs[i].compute {
          indices := indices.(computeFamily := Some(i));
        }
        if hasSurface && fs[i].surfaceSupport {
          indices := indices.(presentFamily := Some(i));
        }
        if IsComplete(indices) {
          break;
        }
        i := i + 1;
      }
    }

    /**
     * The queue bookkeeping of createLogicalDevice (VulkanContext.cpp:265-312):
     * one create-info per distinct family, in ascending order, and every
     * queue type filed under the queue of its own family together with all
     * the types that family serves. A role left unset makes value() throw.
     */
    method CreateLogicalDevice() returns (r: Result<()>)
      requires physicalDevice.Some?
      modifies this
      ensures physicalDevice == old(physicalDevice) && hasSurface == old(hasSurface)
      ensures deviceExtensions == old(deviceExtensions) && instanceExtensions == old(instanceExtensions)
      ensures descriptorPool == old(descriptorPool)
      ensures var q := QueueFamiliesOf(physicalDevice.value.queueFamilies, hasSurface);
        && (r.Ok? <==> IsComplete(q))
        && (r.Err? ==> r.error == BadOptionalAccess && queues == old(queues) && queueCreateFamilies == old(queueCreateFamilies))
        && (r.Ok? ==>
              var g, c, p := q.graphicsFamily.value, q.computeFamily.value, q.presentFamily.value;
              && queueCreateFamilies == UniqueFamilies(g, c, p)
              && forall t: QueueType :: t in queues &&
                   queues[t] == Queue(TypesOf(g, c, p, FamilyOf(g, c, p, t)), FamilyOf(g, c, p, t), 0))
    {
      var indices := FindQueueFamilies();
      if !IsComplete(indices) {
        return Err(BadOptionalAccess);
      }
      var g, c, p := indices.graphicsFamily.value, indices.computeFamily.value, indices.presentFamily.value;
      var unique := UniqueFamilies(g, c, p);
      queueCreateFamilies := [];
      label Creating:
      for i := 0 to |unique|
        invariant unchanged@Creating(this`physicalDevice, this`hasSurface, this`deviceExtensions,
                                     this`instanceExtensions, this`descriptorPool, this`queues)
        invariant queueCreateFamilies == unique[..i]
      {
        queueCreateFamilies := queueCreateFamilies + [unique[i]];
      }
      assert unique[..|unique|] == unique;
      ghost var q0 := queues;
      label Filing:
      for i := 0 to |unique|
        invariant unchanged@Filing(this`physicalDevice, this`hasSurface, this`deviceExtensions,
                                   this`instanceExtensions, this`descriptorPool, this`queueCreateFamilies)
        invariant queues == Filed(q0, g, c, p, unique[..i])
      {
        FiledStep(q0, g, c, p, unique, i);
        var family := unique[i];
        var types := TypesOf(g, c, p, family);
        queues := queues + map t | t in types :: Queue(types, family, 0);
      }
      assert unique[..|unique|] == unique;
      FiledAll(q0, g, c, p);
      r := Ok(());
    }

    /** createDescriptorPool (VulkanContext.cpp:362-377): 10, 50 and 10 descriptors per frame in flight, 100 sets. */
    method CreateDescriptorPool(framesInFlight: DeviceId)
      modifies this`descriptorPool
      ensures descriptorPool == Some(PoolFor(framesInFlight))
    {
      descriptorPool := Some(DescriptorPool(framesInFlight * 10, framesInFlight * 50, framesInFlight * 10, 100));
    }
  }

  /** A discrete GPU found at i, with none before it, is the one FirstDiscrete names. */
  lemma {:induction false} FirstDiscreteAt(ds: seq<PhysicalDevice>, i: nat)
    requires i < |ds| && ds[i].deviceType == DiscreteGpu
    requires forall k :: 0 <= k < i ==> ds[k].deviceType != DiscreteGpu
    ensures Preferred(ds) == ds[i]
  {
    if i > 0 {
      assert ds[1..][i - 1] == ds[i];
      FirstDiscreteAt(ds[1..], i - 1);
      assert Preferred(ds[1..]) == FirstDiscrete(ds[1..]);
    }
  }

  /** The queues map after filing the families fams in turn: each family's types map to its queue. */
  function Filed(q0: map<QueueType, Queue>, g: nat, c: nat, p: nat, fams: seq<nat>): map<QueueType, Queue>
  {
    if fams == [] then q0
    else
      var f := fams[|fams| - 1];
      Filed(q0, g, c, p, fams[..|fams| - 1]) + map t | t in TypesOf(g, c, p, f) :: Queue(TypesOf(g, c, p, f), f, 0)
  }

  /** Once every distinct family is filed, each type maps to the queue of its own family. */
  lemma FiledAll(q0: map<QueueType, Queue>, g: nat, c: nat, p: nat)
    ensures var r := Filed(q0, g, c, p, UniqueFamilies(g, c, p));
      forall t: QueueType :: t in r && r[t] == Queue(TypesOf(g, c, p, FamilyOf(g, c, p, t)), FamilyOf(g, c, p, t), 0)
  {
    forall t: QueueType
      ensures var r := Filed(q0, g, c, p, UniqueFamilies(g, c, p));
        t in r && r[t] == Queue(TypesOf(g, c, p, FamilyOf(g, c, p, t)), FamilyOf(g, c, p, t), 0)
    {
      FiledAt(q0, g, c, p, UniqueFamilies(g, c, p), t);
    }
  }

  /** Filing one more family of the list adds its queue for each of its types. */
  lemma FiledStep(q0: map<QueueType, Queue>, g: nat, c: nat, p: nat, fams: seq<nat>, i: nat)
    requires i < |fams|
    ensures Filed(q0, g, c, p, fams[..i + 1]) ==
      Filed(q0, g, c, p, fams[..i]) + map t | t in TypesOf(g, c, p, fams[i]) :: Queue(TypesOf(g, c, p, fams[i]), fams[i], 0)
  {
    assert fams[..i + 1][..i] == fams[..i];
  }

  /** A type whose family has been filed maps to that family's queue; any other keeps its old entry. */
  lemma {:induction false} FiledAt(q0: map<QueueType, Queue>, g: nat, c: nat, p: nat, fams: seq<nat>, t: QueueType)
    ensures var f := FamilyOf(g, c, p, t);
      var r := Filed(q0, g, c, p, fams);
      (t in r <==> t in q0 || f in fams)
      && (f in fams ==> r[t] == Queue(TypesOf(g, c, p, f), f, 0))
      && (f !in fams && t in q0 ==> r[t] == q0[t])
  {
    if fams != [] {
      var init, last := fams[..|fams| - 1], fams[|fams| - 1];
      FiledAt(q0, g, c, p, init, t);
      assert fams == init + [last];
      var f := FamilyOf(g, c, p, t);
      assert f in fams <==> f in init || f == last;
      var m := map t' | t' in TypesOf(g, c, p, last) :: Queue(TypesOf(g, c, p, last), last, 0);
      assert Filed(q0, g, c, p, fams) == Filed(q0, g, c, p, init) + m;
      assert t in m <==> f == last;
    }
  }

  /** The pool createDescriptorPool asks for. */
  function PoolFor(framesInFlight: DeviceId): (pool: DescriptorPool)
    ensures pool.maxSets == 100
    ensures pool.uniformBuffers == pool.storageImages && pool.storageBuffers == 5 * pool.uniformBuffers
    ensures pool.uniformBuffers == 10 * framesInFlight
    ensures pool.storageBuffers < 0x1_0000_0000
  {
    DescriptorPool(framesInFlight * 10, framesInFlight * 50, framesInFlight * 10, 100)
  }
}
