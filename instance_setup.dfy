/**
 * Two small pure pieces of instance creation: the `vkMakeVersion` lambda of
 * `renderer::createInstance` and the validation-layer `debugCallback`.
 */
module InstanceSetup {
  import opened Base
  import Vk

  /**
   * `vkMakeVersion`: `(major << 22) | (minor << 12) | patch` on `uint32_t`,
   * the packing of section "Version Numbers" of the Vulkan specification.
   * Bits shifted past bit 31 are lost, as in C++.
   */
  function MakeVersion(major: bv32, minor: bv32, patch: bv32): (version: bv32)
    ensures major < 1024 && minor < 1024 && patch < 4096 ==>
              VersionMajor(version) == major && VersionMinor(version) == minor && VersionPatch(version) == patch
  {
    (major << 22) | (minor << 12) | patch
  }

  /** VK_VERSION_MAJOR: the top ten bits. */
  function VersionMajor(version: bv32): bv32 {
    version >> 22
  }

  /** VK_VERSION_MINOR: the ten bits above the patch. */
  function VersionMinor(version: bv32): bv32 {
    (version >> 12) & 0x3FF
  }

  /** VK_VERSION_PATCH: the low twelve bits. */
  function VersionPatch(version: bv32): bv32 {
    version & 0xFFF
  }

  /** Every version word is the packing of its own three fields. */
  lemma VersionDecodeEncode(version: bv32)
    ensures MakeVersion(VersionMajor(version), VersionMinor(version), VersionPatch(version)) == version
  {
  }

  /** The API version (1.0.61) and application version (0.1.0) the renderer requests. */
  lemma RequestedVersions()
    ensures MakeVersion(1, 0, 61) == 0x0040_003D
    ensures MakeVersion(0, 1, 0) == 0x0000_1000
  {
  }

  /**
   * `debugCallback`: throws `std::runtime_error` carrying the message when
   * the error bit is among the flags, and otherwise returns VK_FALSE so the
   * Vulkan call that triggered it is not aborted.
   */
  function DebugCallback(flags: bv32, message: string): (r: Result<uint32>)
    ensures r.Err? <==> flags & Vk.DEBUG_REPORT_ERROR != 0
    ensures r.Err? ==> r.error == RuntimeError(message)
    ensures r.Ok? ==> r.value == Vk.VK_FALSE
  {
    if flags & Vk.DEBUG_REPORT_ERROR != 0 then Err(RuntimeError(message)) else Ok(Vk.VK_FALSE)
  }

  /** The report flags `createDebug` registers for: errors, warnings, performance warnings and information. */
  const RegisteredFlags: bv32 :=
    Vk.DEBUG_REPORT_ERROR | Vk.DEBUG_REPORT_WARNING | Vk.DEBUG_REPORT_PERFORMANCE_WARNING | Vk.DEBUG_REPORT_INFORMATION

  /** Of the single report kinds the callback is registered for, only an error throws. */
  lemma OnlyErrorsThrow(message: string)
    ensures DebugCallback(Vk.DEBUG_REPORT_ERROR, message).Err?
    ensures DebugCallback(Vk.DEBUG_REPORT_WARNING, message) == Ok(Vk.VK_FALSE)
    ensures DebugCallback(Vk.DEBUG_REPORT_PERFORMANCE_WARNING, message) == Ok(Vk.VK_FALSE)
    ensures DebugCallback(Vk.DEBUG_REPORT_INFORMATION, message) == Ok(Vk.VK_FALSE)
    ensures RegisteredFlags & Vk.DEBUG_REPORT_DEBUG == 0
  {
  }
}
