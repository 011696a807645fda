/** The `VK_KHR_swapchain` extension binding (`vk::khr::swapchain`): only its name, which
    the example base asks for when it creates the device. */
module KhrSwapchain {
  const EXTENSION_NAME: string := "VK_KHR_swapchain"
}
