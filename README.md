# rust-vulkan bootstrap, modelled in Dafny

This project models two small pieces of a Rust binding to the Vulkan 1.0 C API.

1. The macro-generated typed wrappers for C enums and bit-flags (`src/vk/helpers.rs`).
   A `make_flag` family is a single-flag type and a flag-set type, both over `u32`.
   They have a zero default, `From<Flag>` for the set, `Into<bool>` for the set, and
   `|` and `&` for all four operand pairings. A `make_enum` type wraps an `i32`.
   The `u32` word is a `bv32`. The `i32` is a bounded `newtype`. A phantom type
   parameter keeps flag families apart. The `TransformFlag`, `CompositeAlphaFlag` and
   `PresentMode` tables of the surface extension (`src/vk/khr/surface.rs`) are concrete
   instances. From the swapchain extension only its extension name is used.
2. The device and queue bootstrap of the example's `ExampleBase`
   (`examples/demos/src/base.rs`): `create_instance`, `create_device`, the
   device and queue choice of `init_vulkan`, and `check_command_buffers`.
   `ExampleBase` is a class whose `Option` fields these methods set.
   Handles are a datatype with a distinguished `Null` (the null pointer); a non-null
   handle carries only an identity, not an address.
   The driver is a `Driver` value: one field per entry point, giving the driver's
   answer. Each method that calls the driver takes it as a parameter.
   A Rust panic is an `Outcome` of `Panic(reason)`. This covers `assert!`,
   `unwrap` on `None`, and the `vkrq`/`vkrqr` checks.

Files: `wrappers.dfy` (Option, Result), `helpers.dfy` (module `Helpers`), `vk.dfy`
(module `Vk`: handles, result and structure-type codes, queue flags, create-info
records, the driver), `khr_surface.dfy` (module `KhrSurface`), `khr_swapchain.dfy` and `khr_xcb_surface.dfy` (the two extension names), `base.dfy` (module `Base`).

Some behaviour of the code that the model keeps as it is:
- `init_vulkan` always takes device 0. If that device reports no queue family, or no graphics-capable family, it aborts rather than trying the other devices.
- The queue family index comes from `position` over the family list, so it is in range by construction. The code does not check it again.
- `Drop for ExampleBase` is `unimplemented!()` (base.rs:444-448): nothing is destroyed, so there is no teardown order to model.

## Model

| member | source | states |
|---|---|---|
| `Helpers.DefaultBit` | src/vk/helpers.rs:46-48 | the default flag and the default flag set have no bit set |
| `Helpers.FromFlagLossless` | src/vk/helpers.rs:81-85 | `Flags::from(f)` keeps the raw word of `f`, so it is injective |
| `Helpers.FromFlagBit` | src/vk/helpers.rs:81-85 | a bit is in `Flags::from(f)` iff it is in `f` |
| `Helpers.IsSet` | src/vk/helpers.rs:87-89 | `Into<bool>` is true iff the set differs from the default (zero) set |
| `Helpers.IsSetLaws` | src/vk/helpers.rs:87-94 | the default set is false; a union is true iff an operand is; a converted flag is true iff it is non-default |
| `Helpers.OrBit` | src/vk/helpers.rs:57-60 | a bit is in `bitor(a, b)` iff it is in `a` or in `b` |
| `Helpers.AndBit` | src/vk/helpers.rs:66-69 | a bit is in `a & b` iff it is in both `a` and `b` |
| `Helpers.SubsetOfBit` | src/vk/helpers.rs:66-69 | `SubsetOf(s, t)`, defined as `s & t == s`, implies every bit of `s` is in `t` |
| `Helpers.SubsetOfFromBits` | src/vk/helpers.rs:66-69 | conversely, if every bit of `s` is in `t` then `s & t == s`; with `SubsetOfBit`, `SubsetOf` is exactly bit inclusion |
| `Helpers.OrLaws` | src/vk/helpers.rs:57-60 | `bitor` is commutative and idempotent, with the default set as identity |
| `Helpers.OrAssociative` | src/vk/helpers.rs:57-60 | `bitor` is associative |
| `Helpers.AndLaws` | src/vk/helpers.rs:66-69 | `&` is commutative and idempotent, and `a & 0 == 0` |
| `Helpers.AndAssociative` | src/vk/helpers.rs:66-69 | `&` is associative |
| `Helpers.Absorption` | src/vk/helpers.rs:52-71 | absorption: `a & bitor(a, b) == a` and `bitor(a, a & b) == a` |
| `Helpers.AndWithin` | src/vk/helpers.rs:63-70 | `a & b` is a subset of `a` and of `b` |
| `Helpers.OrCovers` | src/vk/helpers.rs:54-61 | `a` and `b` are subsets of `bitor(a, b)` |
| `Helpers.PairingsAgree` | src/vk/helpers.rs:91-94 | Flag/Flag, Flag/Flags and Flags/Flag `bitor` and `bitand` equal Flags/Flags after `From` |
| `Helpers.EnumEquality` | src/vk/helpers.rs:3-8 | two `make_enum` values are equal iff their `i32` values are |
| `KhrSurface.TransformFlagsDisjoint` | src/vk/khr/surface.rs:11-21 | the nine transform flags are pairwise bit-disjoint |
| `KhrSurface.CompositeAlphaFlagsDisjoint` | src/vk/khr/surface.rs:22-27 | the four composite-alpha flags are pairwise bit-disjoint |
| `KhrSurface.PresentModesDistinct` | src/vk/khr/surface.rs:31-36 | the four present modes are pairwise distinct |
| `KhrSurface.SupportedTransformsQuery` | src/vk/khr/surface.rs:11-21 | a transform set built with `bitor` answers `&` queries for exactly its members |
| `Vk.AsU32` | examples/demos/src/base.rs:201 | `as u32` keeps the low 32 bits, and keeps the value when it is below 2^32 |
| `Base.GraphicsFamilyIndex` | examples/demos/src/base.rs:193-194 | `position`: the result is a graphics-capable family with none before it; `None` iff no family is graphics-capable |
| `Base.GraphicsFamilyIsLowest` | examples/demos/src/base.rs:193-194 | any graphics-capable family lies at or after the chosen one |
| `Base.SupportsGraphicsIsBitZero` | examples/demos/src/base.rs:194 | `(queueFlags & GRAPHICS).0 != 0` tests exactly bit 0 |
| `Base.TransferThenGraphicsChoosesSecond` | examples/demos/src/base.rs:193-196 | for families [transfer-only, graphics+compute] family 1 is chosen |
| `Base.InstanceCreateRequest` | examples/demos/src/base.rs:89-115 | the instance request names the application, asks for exactly the 2 window-system extensions and no layers |
| `Base.QueueCreateRequest` | examples/demos/src/base.rs:198-206 | the queue request names the selected family and asks for exactly one queue |
| `Base.DeviceCreateRequest` | examples/demos/src/base.rs:133-145 | the device request holds the one queue request; its extension pointer is null iff the list is empty |
| `Base.DeviceRequestNamesSwapchain` | examples/demos/src/base.rs:129-141 | the device extension list is exactly the swapchain extension, so its pointer is never null |
| `Base.SelectDevice` | examples/demos/src/base.rs:162-206 | aborts on an enumeration error, on zero devices, on zero families, and on no graphics family; otherwise device 0 and its lowest graphics family, with a one-queue request |
| `Base.ExampleBase.constructor` | examples/demos/src/base.rs:25-69 | `Default`: every `Option` field is `None`, no command buffers, validation off |
| `Base.ExampleBase.CreateInstance` | examples/demos/src/base.rs:83-125 | sets validation, title "Vulkan Example" and name "vulkanExample"; stores the instance only on driver success, otherwise returns the error |
| `Base.ExampleBase.CreateDevice` | examples/demos/src/base.rs:127-156 | panics without a stored physical device; otherwise returns the driver's result and changes no field (the device is not stored) |
| `Base.ExampleBase.CreateDeviceStoring` | examples/demos/src/base.rs:127-156 | corrected `create_device`: same request, and stores the device on success |
| `Base.ExampleBase.InitVulkan` | examples/demos/src/base.rs:158-221 | as written: stores the instance on success; never assigns the physical device or the device; gives the panic reason (or return) and the new memory properties and queue for every prior state, so without a stored physical device it panics at the `create_device` unwrap, and with one but no device it sets the memory properties and panics at the `self.device` unwrap |
| `Base.ExampleBase.InitVulkanCorrected` | examples/demos/src/base.rs:158-221 | corrected, up to the queue fetch: never panics on an unwrap; on success uses device 0, its lowest graphics family and queue 0 of it; returns normally iff instance creation, enumeration and device creation succeed and device 0 has a graphics family (the later `self.window.unwrap()` of base.rs:227 is outside it, see Left out) |
| `Base.ExampleBase.CheckCommandBuffers` | examples/demos/src/base.rs:351-358 | true iff every draw command buffer is non-null (so true for an empty list) |
| `Base.NewWithValidation` | examples/demos/src/base.rs:76-81 | as written, `new_with_validation` never returns normally: it panics on instance creation or device selection, or else on the `self.physical_device.unwrap()` of `create_device` |

## Left out

- The window-system connection and window setup (`init_xcb_connection`, `setup_window`, `handle_event`): they are foreign XCB calls only. `NewWithValidation` starts at `init_vulkan`.
- The end of `init_vulkan` (base.rs:223-227): the depth-format query and `Swapchain::new` are in files that are not part of this model. That call also unwraps `self.window`, which only `setup_window` (base.rs:237) sets, and `new_with_validation` never calls `setup_window`. So even `InitVulkanCorrected`, extended to the end of `init_vulkan`, would panic there.
- The two-call enumeration protocol (count first, then fill) is one driver answer: a result code and the list of devices. The same holds for the queue families.
- `vktry!`, `vkrq` and `vkrqr` are defined outside the modelled files. They are taken as: any result other than `SUCCESS` returns an error (`vktry!`) or panics (`vkrq`, `vkrqr`).
- Structure-type codes, `GRAPHICS`, the other queue bits, `SUCCESS`, `make_version` and the name of the XCB surface extension come from the Vulkan 1.0 specification, because `src/vk` outside the modelled files is not part of this model.
- The tables of `src/vk/khr/swapchain.rs` (`Result`, `StructureType`, `ImageLayout`, `CreateFlag`), and from `src/vk/khr/surface.rs` the `Result` codes and `ColorSpace`; also both `SPEC_VERSION`s. The modelled code does not use them.
- Floating point: the queue priority `0f32` and the `f32` fields of `ExampleBase`.
- `VkPhysicalDeviceMemoryProperties` keeps only its two counts. Its type and heap arrays are not modelled.
- `enum_defl` (src/vk/helpers.rs:29-36): it only names a default variant and no modelled code uses it.
- Every `unimplemented!()` method, the `Drop` impl, `prepare` and `create_command_pool`: they have no behaviour beyond stubs and foreign calls.
- Raw pointers, `mem::uninitialized`, `CString` conversion and `libc::free`.
- The `enable_validation` argument of `create_device` is accepted and ignored, as in the code.

## Findings

| source | as written | input that shows it | evidently intended | confidence | as-written member | corrected member |
|---|---|---|---|---|---|---|
| examples/demos/src/base.rs:177 | `init_vulkan` keeps the chosen physical device in a local and never sets `self.physical_device`, so `create_device` panics on `self.physical_device.unwrap()` (base.rs:149) | `ExampleBase::default()` and a driver where instance creation, enumeration and queue selection succeed | store the device in `self.physical_device` before `create_device` | high; not executed | `Base.NewWithValidation` | `Base.ExampleBase.InitVulkanCorrected` |
| examples/demos/src/base.rs:147-155 | `create_device` creates the device but never sets `self.device`, so `init_vulkan` panics on `self.device.unwrap()` (base.rs:219) | a base with a physical device stored and no device, and a driver whose `vkCreateDevice` succeeds | store the device in `self.device` | high; not executed | `Base.ExampleBase.InitVulkan` | `Base.ExampleBase.CreateDeviceStoring` |
