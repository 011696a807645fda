/** The `VK_KHR_xcb_surface` extension binding (`vk::khr::xcb_surface`): only its name,
    which the example base asks for when it creates the instance. The binding's source
    is not part of this model; the name is the one fixed by the Vulkan registry. */
module KhrXcbSurface {
  const EXTENSION_NAME: string := "VK_KHR_xcb_surface"
}
