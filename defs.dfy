/**
 * Constants shared by the Exynos graphics-buffer allocator.
 *
 * The usage bits, pixel formats and the name of the allocator device are
 * declared without values: their numbers live in platform headers that are
 * not part of this model, and nothing proved here depends on them. The ION
 * heap ids, heap masks and the 1 MiB alignment are the ones the allocator
 * defines itself.
 */
module Defs {

  datatype Option<T> = None | Some(value: T)

  /** errno value returned (negated) for invalid arguments. */
  const EINVAL: int := 22

  // ---- Usage bits of a buffer request (symbolic) ----

  const UsageSwReadMask: bv32
  const UsageSwReadOften: bv32
  const UsageSwWriteMask: bv32
  const UsageHwTexture: bv32
  const UsageHwFb: bv32
  const UsageHwVideoEncoder: bv32
  /** May be a mask of several bits: the camera zero-shutter-lag rule wants all of them. */
  const UsageHwCameraZsl: bv32
  const UsageProtected: bv32
  const UsagePrivateChroma: bv32

  predicate Has(usage: bv32, mask: bv32) {
    usage & mask != 0
  }

  /** Any software read or write intent. */
  predicate SwUsage(usage: bv32) {
    Has(usage, UsageSwReadMask | UsageSwWriteMask)
  }

  predicate Protected(usage: bv32) {
    Has(usage, UsageProtected)
  }

  // ---- Pixel formats (symbolic) ----

  const FormatRgba8888: int
  const FormatBgra8888: int
  const FormatImplementationDefined: int
  /** Interleaved YUYV. */
  const FormatYCbCr422I: int
  /** Planar YV12 variant of the Exynos platform. */
  const FormatExynosYv12: int
  /** Semi-planar NV12 variant. */
  const FormatYCbCr420Sp: int

  /** Name a client must open to get the allocator device. */
  const Gpu0: string

  // ---- ION heaps and allocation flags ----

  const IonHeapSystemId: bv32 := 0
  const IonHeapExynosContigId: bv32 := 4
  const IonHeapChunkId: bv32 := 6
  const IonHeapExynosContigMask: bv32 := 1 << 4
  const IonExynosFimdVideoMask: bv32 := 1 << 28
  const IonExynosMfcOutputMask: bv32 := 1 << 26
  const IonExynosMfcInputMask: bv32 := 1 << 25
  const Mb1: int := 1024 * 1024

  /** Cache flags of the Linux ION interface. */
  const IonFlagCached: bv32 := 1
  const IonFlagCachedNeedsSync: bv32 := 2
  const IonCacheMask: bv32 := IonFlagCached | IonFlagCachedNeedsSync

  // ---- Colour metadata attached to YUV handles ----

  /** `Unset` is what a freshly constructed handle carries. */
  datatype Chroma = ChromaUnset | Bt601_8 | Bt709_8
  datatype Gamut = GamutUnset | Narrow8 | Wide8
}
