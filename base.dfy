/** The device and queue bootstrap of the example application's `ExampleBase`:
    `create_instance`, `create_device`, the device and queue choice of `init_vulkan`,
    and `check_command_buffers`.

    A Rust panic (`assert!`, `Option::unwrap` on `None`, and the `vkrq`/`vkrqr`
    checks on a driver result) ends the program; here it is an `Outcome` of `Panic`
    with the reason, and nothing after it runs. */
module Base {
  import opened Wrappers
  import opened Helpers
  import opened Vk
  import KhrSurface
  import KhrSwapchain
  import KhrXcbSurface

  // ---- Outcomes ----

  /** The `Option` field whose `unwrap` failed. */
  datatype Field = InstanceField | PhysicalDeviceField | DeviceField

  /** Why initialisation panicked. */
  datatype Abort =
    | InstanceCreationFailed(code: VkResult)  // vkrqr: "could not create instance"
    | EnumerationFailed(code: VkResult)       // vkrq: "could not enumerate physical devices"
    | NoPhysicalDevices                       // assert!: "no physical devices found"
    | NoQueueFamilies                         // assert!: "could not query physical device queue family"
    | NoGraphicsQueue                         // assert!: "could not find graphics queue"
    | DeviceCreationFailed(code: VkResult)    // vkrqr: "unable to create device/queue"
    | UnwrappedNone(field: Field)             // Option::unwrap on None

  /** A call that either returns a value or panics. */
  datatype Outcome<+T> = Return(value: T) | Panic(reason: Abort)

  /** The device and queue family `init_vulkan` settles on, and the queue request it builds. */
  datatype Selection = Selection(
    physicalDevice: Handle,
    familyIndex: nat,
    queueRequest: DeviceQueueCreateInfo)

  // ---- Constants of the example ----

  const ExampleTitle: string := "Vulkan Example"
  const ExampleName: string := "vulkanExample"

  /** `vk::make_version(1, 0, 2)`: major in bits 22.., minor in bits 12..21, patch below. */
  const ApiVersion: u32 := (1 * 0x40_0000 + 0 * 0x1000 + 2) as u32

  /** The instance extensions the example asks for, in order. */
  const InstanceExtensions: seq<string> :=
    [KhrSurface.EXTENSION_NAME, KhrXcbSurface.EXTENSION_NAME]

  /** The device extensions the example asks for. */
  const DeviceExtensions: seq<string> := [KhrSwapchain.EXTENSION_NAME]

  // ---- Graphics queue-family choice ----

  /** `(p.queueFlags & vk::QueueFlag::GRAPHICS).0 != 0`. */
  predicate SupportsGraphics(p: QueueFamilyProperties)
  {
    AndFlagsFlag(p.queueFlags, GRAPHICS).bits != 0
  }

  /** `queue_props.iter().position(SupportsGraphics)`: the lowest index of a family with
      the graphics bit, or `None` when no family has it. */
  function GraphicsFamilyIndex(props: seq<QueueFamilyProperties>): (r: Option<nat>)
    ensures r.Some? ==> r.value < |props| && SupportsGraphics(props[r.value])
    ensures r.Some? ==> forall j | 0 <= j < r.value :: !SupportsGraphics(props[j])
    ensures r.None? <==> forall j | 0 <= j < |props| :: !SupportsGraphics(props[j])
  {
    if |props| == 0 then None
    else if SupportsGraphics(props[0]) then Some(0)
    else match GraphicsFamilyIndex(props[1..])
      case None => None
      case Some(k) => Some(k + 1)
  }

  /** The family chosen is the lowest graphics-capable one: any graphics-capable family
      lies at or after it. */
  lemma GraphicsFamilyIsLowest(props: seq<QueueFamilyProperties>, k: nat)
    requires k < |props| && SupportsGraphics(props[k])
    ensures GraphicsFamilyIndex(props).Some?
    ensures GraphicsFamilyIndex(props).value <= k
  {
  }

  /** The graphics test reads exactly bit 0 of the family's flags (`GRAPHICS` is 0x1). */
  lemma SupportsGraphicsIsBitZero(p: QueueFamilyProperties)
    ensures SupportsGraphics(p) <==> HasBit(p.queueFlags.bits, 0)
  {
    assert AndFlagsFlag(p.queueFlags, GRAPHICS).bits == WordAnd(p.queueFlags.bits, 1);
  }

  /** A transfer-only family followed by a graphics-and-compute family: the second is chosen. */
  lemma TransferThenGraphicsChoosesSecond()
    ensures var transferOnly := QueueFamilyProperties(FromFlag(TRANSFER), 1);
      var graphicsCompute := QueueFamilyProperties(OrFlagFlag(GRAPHICS, COMPUTE), 1);
      GraphicsFamilyIndex([transferOnly, graphicsCompute]) == Some(1)
  {
    var transferOnly := QueueFamilyProperties(FromFlag(TRANSFER), 1);
    var graphicsCompute := QueueFamilyProperties(OrFlagFlag(GRAPHICS, COMPUTE), 1);
    assert !SupportsGraphics(transferOnly);
    assert SupportsGraphics(graphicsCompute);
    assert [transferOnly, graphicsCompute][1..] == [graphicsCompute];
  }

  // ---- The requests the example sends to the driver ----

  /** The `VkInstanceCreateInfo` of `create_instance` for application name `name`. */
  function InstanceCreateRequest(name: string): (info: InstanceCreateInfo)
    ensures info.sType == INSTANCE_CREATE_INFO
    ensures info.applicationInfo.applicationName == name && info.applicationInfo.engineName == name
    ensures info.enabledExtensionNames == InstanceExtensions
    ensures info.enabledExtensionCount as int == |info.enabledExtensionNames| == 2
    ensures info.enabledLayerCount == 0 && info.enabledLayerNames.None?
  {
    InstanceCreateInfo(
      INSTANCE_CREATE_INFO,
      ApplicationInfo(APPLICATION_INFO, name, name, ApiVersion, 0, 0),
      AsU32(|InstanceExtensions|),
      InstanceExtensions,
      0,
      None,
      DefaultFlags())
  }

  /** The `VkDeviceQueueCreateInfo` of `init_vulkan` for family `familyIndex`: one queue
      from that family (`graphics_queue_index as u32` truncates a `usize`). */
  function QueueCreateRequest(familyIndex: nat): (info: DeviceQueueCreateInfo)
    ensures info.sType == DEVICE_QUEUE_CREATE_INFO
    ensures familyIndex < 0x1_0000_0000 ==> info.queueFamilyIndex as int == familyIndex
    ensures info.queueCount == 1
    ensures !IsSet(info.flags)
  {
    DeviceQueueCreateInfo(DEVICE_QUEUE_CREATE_INFO, AsU32(familyIndex), 1, DefaultFlags())
  }

  /** The `VkDeviceCreateInfo` of `create_device`: the one requested queue, and the
      extension list, whose pointer is null exactly when the list is empty. */
  function DeviceCreateRequest(requested: DeviceQueueCreateInfo, extensions: seq<string>): (info: DeviceCreateInfo)
    ensures info.sType == DEVICE_CREATE_INFO
    ensures info.queueCreateInfos == [requested]
    ensures info.queueCreateInfoCount as int == |info.queueCreateInfos|
    ensures info.enabledExtensionNames.None? <==> |extensions| == 0
    ensures info.enabledExtensionNames.Some? ==> info.enabledExtensionNames.value == extensions
    ensures |extensions| < 0x1_0000_0000 ==> info.enabledExtensionCount as int == |extensions|
    ensures info.enabledLayerCount == 0 && info.enabledLayerNames.None?
  {
    DeviceCreateInfo(
      DEVICE_CREATE_INFO,
      1,
      [requested],
      AsU32(|extensions|),
      if |extensions| == 0 then None else Some(extensions),
      0,
      None,
      DefaultFlags())
  }

  /** The device request always names the swapchain extension, so its extension pointer
      is never null. */
  lemma DeviceRequestNamesSwapchain(requested: DeviceQueueCreateInfo)
    ensures DeviceCreateRequest(requested, DeviceExtensions).enabledExtensionNames
         == Some([KhrSwapchain.EXTENSION_NAME])
    ensures DeviceCreateRequest(requested, DeviceExtensions).enabledExtensionCount == 1
  {
  }

  // ---- Device and queue choice ----

  /** The queries of `init_vulkan` between instance and device creation: enumerate the
      physical devices of `instance`, take the first, and pick its first graphics-capable
      queue family. */
  function SelectDevice(driver: Driver, instance: Option<Handle>): (o: Outcome<Selection>)
    ensures instance.None? ==> o == Panic(UnwrappedNone(InstanceField))
    ensures instance.Some? ==>
      var listed := driver.enumeratePhysicalDevices(instance.value);
      if listed.result != SUCCESS then o == Panic(EnumerationFailed(listed.result))
      else if |listed.devices| == 0 then o == Panic(NoPhysicalDevices)
      else
        var props := driver.queueFamilyProperties(listed.devices[0]);
        if |props| == 0 then o == Panic(NoQueueFamilies)
        else if forall j | 0 <= j < |props| :: !SupportsGraphics(props[j]) then o == Panic(NoGraphicsQueue)
        else
          && o.Return?
          && o.value.physicalDevice == listed.devices[0]
          && o.value.familyIndex < |props|
          && SupportsGraphics(props[o.value.familyIndex])
          && (forall j | 0 <= j < o.value.familyIndex :: !SupportsGraphics(props[j]))
          && o.value.queueRequest.queueFamilyIndex == AsU32(o.value.familyIndex)
          && o.value.queueRequest.queueCount == 1
  {
    if instance.None? then Panic(UnwrappedNone(InstanceField))
    else
      var listed := driver.enumeratePhysicalDevices(instance.value);
      if listed.result != SUCCESS then Panic(EnumerationFailed(listed.result))
      else if |listed.devices| == 0 then Panic(NoPhysicalDevices)
      else
        var physical := listed.devices[0];
        var props := driver.queueFamilyProperties(physical);
        if |props| == 0 then Panic(NoQueueFamilies)
        else match GraphicsFamilyIndex(props)
          case None => Panic(NoGraphicsQueue)
          case Some(index) => Return(Selection(physical, index, QueueCreateRequest(index)))
  }

  // ---- ExampleBase ----

  /** The fields of `ExampleBase` that the bootstrap reads or writes. */
  class ExampleBase {
    var enableValidation: bool
    var instance: Option<Handle>
    var physicalDevice: Option<Handle>
    var deviceMemoryProps: Option<MemoryProperties>
    var device: Option<Handle>
    var queue: Option<Handle>
    var drawCmdBuffers: seq<Handle>
    var title: Option<string>
    var name: Option<string>

    /** `ExampleBase::default()`. */
    constructor ()
      ensures !enableValidation
      ensures instance.None? && physicalDevice.None? && deviceMemoryProps.None?
      ensures device.None? && queue.None?
      ensures drawCmdBuffers == []
      ensures title.None? && name.None?
    {
      enableValidation := false;
      instance := None;
      physicalDevice := None;
      deviceMemoryProps := None;
      device := None;
      queue := None;
      drawCmdBuffers := [];
      title := None;
      name := None;
    }

    /** `create_instance`: records the validation switch, title and name, then asks the
        driver for an instance with the two window-system extensions; the instance is
        stored only when the driver reports success. */
    method CreateInstance(driver: Driver, enable: bool) returns (r: Result<(), VkResult>)
      modifies this`enableValidation, this`title, this`name, this`instance
      ensures enableValidation == enable
      ensures title == Some(ExampleTitle) && name == Some(ExampleName)
      ensures var created := driver.createInstance(InstanceCreateRequest(ExampleName));
        if created.result == SUCCESS
        then r == Ok(()) && instance == Some(created.handle)
        else r == Err(created.result) && instance == old(instance)
    {
      enableValidation := enable;
      title := Some(ExampleTitle);
      name := Some(ExampleName);
      var created := driver.createInstance(InstanceCreateRequest(name.value));
      if created.result != SUCCESS {
        return Err(created.result);
      }
      instance := Some(created.handle);
      r := Ok(());
    }

    /** `create_device`, as written: it unwraps `self.physical_device`, asks the driver
        for a device with the swapchain extension, and reports the driver's result, but
        never stores the new device, so no field changes. */
    method CreateDevice(driver: Driver, requested: DeviceQueueCreateInfo, enable: bool)
      returns (o: Outcome<Result<(), VkResult>>)
      ensures physicalDevice.None? ==> o == Panic(UnwrappedNone(PhysicalDeviceField))
      ensures physicalDevice.Some? ==>
        var created := driver.createDevice(physicalDevice.value, DeviceCreateRequest(requested, DeviceExtensions));
        o == Return(if created.result == SUCCESS then Ok(()) else Err(created.result))
    {
      if physicalDevice.None? {
        return Panic(UnwrappedNone(PhysicalDeviceField));
      }
      var created := driver.createDevice(physicalDevice.value, DeviceCreateRequest(requested, DeviceExtensions));
      if created.result != SUCCESS {
        return Return(Err(created.result));
      }
      o := Return(Ok(()));
    }

    /** `create_device` as evidently intended: the same request, and on success the new
        device is stored in `device`. */
    method CreateDeviceStoring(driver: Driver, requested: DeviceQueueCreateInfo, enable: bool)
      returns (o: Outcome<Result<(), VkResult>>)
      modifies this`device
      ensures physicalDevice.None? ==> o == Panic(UnwrappedNone(PhysicalDeviceField)) && device == old(device)
      ensures physicalDevice.Some? ==>
        var created := driver.createDevice(physicalDevice.value, DeviceCreateRequest(requested, DeviceExtensions));
        if created.result == SUCCESS
        then o == Return(Ok(())) && device == Some(created.handle)
        else o == Return(Err(created.result)) && device == old(device)
    {
      if physicalDevice.None? {
        return Panic(UnwrappedNone(PhysicalDeviceField));
      }
      var created := driver.createDevice(physicalDevice.value, DeviceCreateRequest(requested, DeviceExtensions));
      if created.result != SUCCESS {
        return Return(Err(created.result));
      }
      device := Some(created.handle);
      o := Return(Ok(()));
    }

    /** `init_vulkan` up to fetching the graphics queue, as written. The chosen physical
        device is kept in a local and never stored, and `create_device` does not store the
        device either, so from a fresh `ExampleBase` it always panics; in particular it
        never assigns `physicalDevice` or `device`. The outcome and the new `instance`,
        `deviceMemoryProps` and `queue` are given for every driver and every prior state. */
    method InitVulkan(driver: Driver, enable: bool) returns (o: Outcome<()>)
      modifies this`enableValidation, this`title, this`name, this`instance
      modifies this`deviceMemoryProps, this`queue
      ensures enableValidation == enable && title == Some(ExampleTitle) && name == Some(ExampleName)
      ensures physicalDevice == old(physicalDevice) && device == old(device)
      ensures var created := driver.createInstance(InstanceCreateRequest(ExampleName));
        if created.result == SUCCESS then instance == Some(created.handle) else instance == old(instance)
      ensures
        var created := driver.createInstance(InstanceCreateRequest(ExampleName));
        var selected := SelectDevice(driver, Some(created.handle));
        if created.result != SUCCESS then
          o == Panic(InstanceCreationFailed(created.result))
          && queue == old(queue) && deviceMemoryProps == old(deviceMemoryProps)
        else if selected.Panic? then
          o == Panic(selected.reason)
          && queue == old(queue) && deviceMemoryProps == old(deviceMemoryProps)
        else if old(physicalDevice).None? then
          o == Panic(UnwrappedNone(PhysicalDeviceField))
          && queue == old(queue) && deviceMemoryProps == old(deviceMemoryProps)
        else
          var made := driver.createDevice(old(physicalDevice).value,
            DeviceCreateRequest(selected.value.queueRequest, DeviceExtensions));
          if made.result != SUCCESS then
            o == Panic(DeviceCreationFailed(made.result))
            && queue == old(queue) && deviceMemoryProps == old(deviceMemoryProps)
          else
            // The memory properties are read from the chosen device, not the stored one.
            && deviceMemoryProps == Some(driver.memoryProperties(selected.value.physicalDevice))
            && if old(device).None?
               then o == Panic(UnwrappedNone(DeviceField)) && queue == old(queue)
               else o == Return(()) && queue == Some(driver.deviceQueue(old(device).value,
                      AsU32(selected.value.familyIndex), 0))
      ensures old(device).None? ==> o.Panic?
      ensures o.Return? ==> instance.Some? && deviceMemoryProps.Some? && queue.Some?
    {
      var created := CreateInstance(driver, enable);
      if created.Err? {
        return Panic(InstanceCreationFailed(created.error));
      }
      var selected := SelectDevice(driver, instance);
      if selected.Panic? {
        return Panic(selected.reason);
      }
      var choice := selected.value;
      var made := CreateDevice(driver, choice.queueRequest, enable);
      if made.Panic? {
        return Panic(made.reason);
      }
      if made.value.Err? {
        return Panic(DeviceCreationFailed(made.value.error));
      }
      deviceMemoryProps := Some(driver.memoryProperties(choice.physicalDevice));
      if device.None? {
        return Panic(UnwrappedNone(DeviceField));
      }
      queue := Some(driver.deviceQueue(device.value, AsU32(choice.familyIndex), 0));
      o := Return(());
    }

    /** `init_vulkan` up to fetching the graphics queue, as evidently intended: the chosen
        physical device is stored before `create_device`, which stores the device. Success
        then means the first enumerated device, its lowest graphics-capable family, and
        queue 0 of that family on the new device. */
    method InitVulkanCorrected(driver: Driver, enable: bool) returns (o: Outcome<()>)
      modifies this`enableValidation, this`title, this`name, this`instance
      modifies this`physicalDevice, this`device, this`deviceMemoryProps, this`queue
      ensures enableValidation == enable && title == Some(ExampleTitle) && name == Some(ExampleName)
      ensures var created := driver.createInstance(InstanceCreateRequest(ExampleName));
        if created.result == SUCCESS then instance == Some(created.handle) else instance == old(instance)
      ensures o.Return? ==>
        && instance.Some?
        && var listed := driver.enumeratePhysicalDevices(instance.value);
        && |listed.devices| > 0
        && physicalDevice == Some(listed.devices[0])
        && var props := driver.queueFamilyProperties(listed.devices[0]);
        && GraphicsFamilyIndex(props).Some?
        && var family := GraphicsFamilyIndex(props).value;
        && device == Some(driver.createDevice(listed.devices[0],
             DeviceCreateRequest(QueueCreateRequest(family), DeviceExtensions)).handle)
        && deviceMemoryProps == Some(driver.memoryProperties(listed.devices[0]))
        && queue == Some(driver.deviceQueue(device.value, AsU32(family), 0))
      ensures o == Panic(NoGraphicsQueue) ==>
        && instance.Some?
        && var listed := driver.enumeratePhysicalDevices(instance.value);
        && |listed.devices| > 0
        && var props := driver.queueFamilyProperties(listed.devices[0]);
        && |props| > 0 && forall j | 0 <= j < |props| :: !SupportsGraphics(props[j])
      ensures o == Panic(NoPhysicalDevices) ==>
        instance.Some? && driver.enumeratePhysicalDevices(instance.value).devices == []
      ensures !(o.Panic? && o.reason.UnwrappedNone?)
      ensures
        var created := driver.createInstance(InstanceCreateRequest(ExampleName));
        var selected := SelectDevice(driver, Some(created.handle));
        created.result == SUCCESS && selected.Return? &&
        driver.createDevice(selected.value.physicalDevice,
          DeviceCreateRequest(selected.value.queueRequest, DeviceExtensions)).result == SUCCESS
        <==> o.Return?
    {
      var created := CreateInstance(driver, enable);
      if created.Err? {
        return Panic(InstanceCreationFailed(created.error));
      }
      var selected := SelectDevice(driver, instance);
      if selected.Panic? {
        return Panic(selected.reason);
      }
      var choice := selected.value;
      physicalDevice := Some(choice.physicalDevice);
      var made := CreateDeviceStoring(driver, choice.queueRequest, enable);
      // With the physical device stored, `create_device` cannot panic.
      if made != Return(Ok(())) {
        return Panic(DeviceCreationFailed(made.value.error));
      }
      deviceMemoryProps := Some(driver.memoryProperties(choice.physicalDevice));
      if device.None? {
        return Panic(UnwrappedNone(DeviceField));
      }
      queue := Some(driver.deviceQueue(device.value, AsU32(choice.familyIndex), 0));
      o := Return(());
    }

    /** `check_command_buffers`: true iff no draw command buffer is null. */
    method CheckCommandBuffers() returns (ok: bool)
      ensures ok <==> forall i | 0 <= i < |drawCmdBuffers| :: drawCmdBuffers[i] != Null
    {
      var i := 0;
      while i < |drawCmdBuffers|
        invariant 0 <= i <= |drawCmdBuffers|
        invariant forall j | 0 <= j < i :: drawCmdBuffers[j] != Null
      {
        if drawCmdBuffers[i] == Null {
          return false;
        }
        i := i + 1;
      }
      ok := true;
    }
  }

  /** `ExampleBase::new_with_validation` without the window connection: a default base
      followed by `init_vulkan`. As written it never returns normally. */
  method NewWithValidation(driver: Driver, enable: bool) returns (base: ExampleBase, o: Outcome<()>)
    ensures fresh(base)
    ensures
      var created := driver.createInstance(InstanceCreateRequest(ExampleName));
      var selected := SelectDevice(driver, Some(created.handle));
      o == if created.result != SUCCESS then Panic(InstanceCreationFailed(created.result))
           else if selected.Panic? then Panic(selected.reason)
           else Panic(UnwrappedNone(PhysicalDeviceField))
    ensures o.Panic?
    ensures base.physicalDevice.None? && base.device.None? && base.queue.None?
  {
    base := new ExampleBase();
    o := base.InitVulkan(driver, enable);
  }
}
