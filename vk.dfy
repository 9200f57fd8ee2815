/**
 * The numeric values of the Vulkan, GLFW and Assimp enumerants the core
 * compares against, as the public headers define them. The module is named
 * after the Vulkan ones, which are most of them; the GLFW and Assimp
 * constants keep their `GLFW_` and `AI_` prefixes.
 */
module Vk {
  import opened Base

  // VkFormat
  const FORMAT_R8G8B8A8_UNORM: uint32 := 37
  const FORMAT_B8G8R8A8_UNORM: uint32 := 44
  const FORMAT_R32G32_SFLOAT: uint32 := 103
  const FORMAT_R32G32B32_SFLOAT: uint32 := 106
  const FORMAT_D32_SFLOAT: uint32 := 126
  const FORMAT_D24_UNORM_S8_UINT: uint32 := 129
  const FORMAT_D32_SFLOAT_S8_UINT: uint32 := 130

  // VkColorSpaceKHR
  const COLOR_SPACE_SRGB_NONLINEAR: uint32 := 0

  // VkPresentModeKHR
  const PRESENT_MODE_IMMEDIATE: uint32 := 0
  const PRESENT_MODE_MAILBOX: uint32 := 1
  const PRESENT_MODE_FIFO: uint32 := 2

  // VkImageLayout
  const LAYOUT_UNDEFINED: uint32 := 0
  const LAYOUT_DEPTH_STENCIL_ATTACHMENT_OPTIMAL: uint32 := 3
  const LAYOUT_SHADER_READ_ONLY_OPTIMAL: uint32 := 5
  const LAYOUT_TRANSFER_DST_OPTIMAL: uint32 := 7

  // VkAccessFlagBits
  const ACCESS_NONE: bv32 := 0
  const ACCESS_SHADER_READ: bv32 := 0x20
  const ACCESS_DEPTH_STENCIL_ATTACHMENT_READ: bv32 := 0x200
  const ACCESS_DEPTH_STENCIL_ATTACHMENT_WRITE: bv32 := 0x400
  const ACCESS_TRANSFER_WRITE: bv32 := 0x1000

  // VkPipelineStageFlagBits
  const STAGE_TOP_OF_PIPE: bv32 := 0x1
  const STAGE_FRAGMENT_SHADER: bv32 := 0x80
  const STAGE_EARLY_FRAGMENT_TESTS: bv32 := 0x100
  const STAGE_COLOR_ATTACHMENT_OUTPUT: bv32 := 0x400
  const STAGE_TRANSFER: bv32 := 0x1000

  // VkImageAspectFlagBits
  const ASPECT_COLOR: bv32 := 0x1
  const ASPECT_DEPTH: bv32 := 0x2
  const ASPECT_STENCIL: bv32 := 0x4

  // VkQueueFlagBits
  const QUEUE_GRAPHICS: bv32 := 0x1

  // VkDebugReportFlagBitsEXT
  const DEBUG_REPORT_INFORMATION: bv32 := 0x1
  const DEBUG_REPORT_WARNING: bv32 := 0x2
  const DEBUG_REPORT_PERFORMANCE_WARNING: bv32 := 0x4
  const DEBUG_REPORT_ERROR: bv32 := 0x8
  const DEBUG_REPORT_DEBUG: bv32 := 0x10

  const VK_FALSE: uint32 := 0

  // VkIndexType and VkVertexInputRate
  const INDEX_TYPE_UINT16: uint32 := 0
  const VERTEX_INPUT_RATE_VERTEX: uint32 := 0

  // GLFW key actions, key codes and cursor modes
  const GLFW_RELEASE: uint32 := 0
  const GLFW_PRESS: uint32 := 1
  const GLFW_KEY_ESCAPE: uint32 := 256
  const GLFW_KEY_BACKSPACE: uint32 := 259
  /** The input mode that selects the cursor behaviour. */
  const GLFW_CURSOR: uint32 := 0x0003_3001
  const GLFW_CURSOR_NORMAL: uint32 := 0x0003_4001
  const GLFW_CURSOR_DISABLED: uint32 := 0x0003_4003

  // Assimp scene flags
  const AI_SCENE_FLAGS_INCOMPLETE: bv32 := 0x1
}
