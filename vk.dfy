/** The parts of the Vulkan 1.0 binding that the example base depends on: opaque
    handles, `vk::Result`, the structure-type and queue-flag constants, the create-info
    records it fills in, and the driver entry points it calls.

    The driver is foreign code. It is modelled as a value of type `Driver` whose fields
    give the driver's answer to each call; every method that "calls the driver" takes
    that value as a parameter, so the driver's behaviour is an input of the model. */
module Vk {
  import opened Wrappers
  import opened Helpers

  /** A C `uint32_t`. */
  newtype u32 = x: int | 0 <= x < 0x1_0000_0000

  /** `x as u32` in Rust on an unsigned value: keeps the low 32 bits. */
  function AsU32(x: nat): (r: u32)
    ensures x < 0x1_0000_0000 ==> r as int == x
    ensures r as int % 0x1_0000_0000 == x % 0x1_0000_0000
  {
    (x % 0x1_0000_0000) as u32
  }

  /** An opaque handle (`opaque!`: a raw pointer to an uninhabited type). `Null` is the
      null pointer, address 0; `Ptr(id)` is a non-null pointer, and `id` only tells
      distinct objects apart (it is not the address). */
  datatype Handle = Null | Ptr(id: nat)

  // ---- vk::Result ----

  datatype ResultKind = ResultKind
  type VkResult = Enum<ResultKind>

  /** `VK_SUCCESS` (section "Return Codes" of the Vulkan 1.0 specification). */
  const SUCCESS: VkResult := Enum(0)

  // ---- vk::StructureType (values from the Vulkan 1.0 specification) ----

  datatype StructureTypeKind = StructureTypeKind
  type StructureType = Enum<StructureTypeKind>

  const APPLICATION_INFO: StructureType := Enum(0)
  const INSTANCE_CREATE_INFO: StructureType := Enum(1)
  const DEVICE_QUEUE_CREATE_INFO: StructureType := Enum(2)
  const DEVICE_CREATE_INFO: StructureType := Enum(3)

  // ---- vk::QueueFlag / QueueFlags (VkQueueFlagBits of the Vulkan 1.0 specification) ----

  datatype QueueKind = QueueKind
  type QueueFlag = Flag<QueueKind>
  type QueueFlags = Flags<QueueKind>

  const GRAPHICS: QueueFlag := Flag(0x0000_0001)
  const COMPUTE: QueueFlag := Flag(0x0000_0002)
  const TRANSFER: QueueFlag := Flag(0x0000_0004)

  /** The empty flag words of the create-info records (`flags: Default::default()`). */
  datatype CreateKind = CreateKind
  type CreateFlags = Flags<CreateKind>

  // ---- Query results ----

  /** One entry of `vkGetPhysicalDeviceQueueFamilyProperties`. */
  datatype QueueFamilyProperties = QueueFamilyProperties(queueFlags: QueueFlags, queueCount: u32)

  /** The leading counts of `VkPhysicalDeviceMemoryProperties`. */
  datatype MemoryProperties = MemoryProperties(memoryTypeCount: u32, memoryHeapCount: u32)

  // ---- Create-info records (pointers to C strings become strings, null becomes None) ----

  datatype ApplicationInfo = ApplicationInfo(
    sType: StructureType,
    applicationName: string,
    engineName: string,
    apiVersion: u32,
    applicationVersion: u32,
    engineVersion: u32)

  datatype InstanceCreateInfo = InstanceCreateInfo(
    sType: StructureType,
    applicationInfo: ApplicationInfo,
    enabledExtensionCount: u32,
    enabledExtensionNames: seq<string>,
    enabledLayerCount: u32,
    enabledLayerNames: Option<seq<string>>,
    flags: CreateFlags)

  datatype DeviceQueueCreateInfo = DeviceQueueCreateInfo(
    sType: StructureType,
    queueFamilyIndex: u32,
    queueCount: u32,
    flags: CreateFlags)

  datatype DeviceCreateInfo = DeviceCreateInfo(
    sType: StructureType,
    queueCreateInfoCount: u32,
    queueCreateInfos: seq<DeviceQueueCreateInfo>,
    enabledExtensionCount: u32,
    enabledExtensionNames: Option<seq<string>>,
    enabledLayerCount: u32,
    enabledLayerNames: Option<seq<string>>,
    flags: CreateFlags)

  // ---- The driver ----

  /** What a create call reports: its result code and the handle it wrote. */
  datatype Created = Created(result: VkResult, handle: Handle)

  /** What `vkEnumeratePhysicalDevices` reports: its result code and the devices. */
  datatype Enumerated = Enumerated(result: VkResult, devices: seq<Handle>)

  /** The driver's answer to each entry point the example base calls. */
  datatype Driver = Driver(
    createInstance: InstanceCreateInfo -> Created,
    enumeratePhysicalDevices: Handle -> Enumerated,
    queueFamilyProperties: Handle -> seq<QueueFamilyProperties>,
    createDevice: (Handle, DeviceCreateInfo) -> Created,
    memoryProperties: Handle -> MemoryProperties,
    deviceQueue: (Handle, u32, u32) -> Handle)
}
