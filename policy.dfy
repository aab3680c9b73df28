/**
 * The pure decisions of the allocator: which ION heaps a buffer may come
 * from, how the RGB and YUV paths rewrite the requested pixel format, which
 * alignment and kernel flags they add, and which colour metadata a YUV
 * handle carries.
 */
module Policy {
  import opened Defs

  /** `_select_heap`: the ION heap mask for a usage. */
  function SelectHeap(usage: bv32): (mask: bv32)
    ensures mask == IonHeapExynosContigMask <==> Protected(usage)
    ensures mask & IonHeapExynosContigMask == 0 || mask == IonHeapExynosContigMask
  {
    if Protected(usage) then 1 << IonHeapExynosContigId
    else (1 << IonHeapSystemId) | (1 << IonHeapChunkId)
  }

  /** The heap with id `id` is eligible under `mask`. */
  predicate HeapSelected(mask: bv32, id: bv32)
    requires id < 32
  {
    mask & (1 << id) != 0
  }

  /**
   * Protected buffers come from the contiguous Exynos heap and nowhere else;
   * every other buffer may come from the system heap or the chunk heap, and
   * from no third heap.
   */
  lemma SelectHeapChoosesHeaps(usage: bv32, id: bv32)
    requires id < 32
    ensures HeapSelected(SelectHeap(usage), id) <==>
              if Protected(usage) then id == IonHeapExynosContigId
              else id == IonHeapSystemId || id == IonHeapChunkId
  {
  }

  /**
   * The format coercion of the RGB path. `None` is the -EINVAL it returns
   * for an encoder target with software access.
   */
  function CoerceRgbFormat(format: int, usage: bv32): (r: Option<int>)
    // a framebuffer target is BGRA, software bits or not
    ensures format == FormatRgba8888 && Has(usage, UsageHwFb) ==> r == Some(FormatBgra8888)
    // an encoder target is BGRA, and refuses software access
    ensures format == FormatRgba8888 && !Has(usage, UsageHwFb) && Has(usage, UsageHwVideoEncoder) ==>
              r == if SwUsage(usage) then None else Some(FormatBgra8888)
    // the only rejection
    ensures r.None? <==>
              format == FormatRgba8888 && !Has(usage, UsageHwFb) &&
              Has(usage, UsageHwVideoEncoder) && SwUsage(usage)
    // the only rewrite is RGBA to BGRA; every other request keeps its format
    ensures r.Some? && r.value != format ==> format == FormatRgba8888 && r.value == FormatBgra8888
    ensures format != FormatRgba8888 ==> r == Some(format)
    ensures !Has(usage, UsageHwFb) && !Has(usage, UsageHwVideoEncoder) ==> r == Some(format)
  {
    if format == FormatRgba8888 then
      if Has(usage, UsageHwFb) then Some(FormatBgra8888)
      else if Has(usage, UsageHwVideoEncoder) then
        if SwUsage(usage) then None else Some(FormatBgra8888)
      else Some(format)
    else Some(format)
  }

  /** Allocation alignment of the RGB path. */
  function RgbAlignment(usage: bv32): (a: int)
    ensures a == Mb1 <==> Protected(usage)
    ensures a == 0 || a == Mb1
  {
    if Protected(usage) then Mb1 else 0
  }

  /** Kernel flags of the RGB path: the caller's flags, plus the display-protection bit for protected content. */
  function RgbIonFlags(usage: bv32, flags: bv32): (f: bv32)
    ensures f & !IonExynosFimdVideoMask == flags & !IonExynosFimdVideoMask
    ensures Protected(usage) ==> f & IonExynosFimdVideoMask != 0
    ensures !Protected(usage) ==> f == flags
  {
    if Protected(usage) then flags | IonExynosFimdVideoMask else flags
  }

  /** Kernel flags of the multi-plane YUV path: the caller's flags, plus the MFC-output bit for protected content. */
  function YuvIonFlags(usage: bv32, flags: bv32): (f: bv32)
    ensures f & !IonExynosMfcOutputMask == flags & !IonExynosMfcOutputMask
    ensures Protected(usage) ==> f & IonExynosMfcOutputMask != 0
    ensures !Protected(usage) ==> f == flags
  {
    if Protected(usage) then flags | IonExynosMfcOutputMask else flags
  }

  /** Resolution of the implementation-defined placeholder by the YUV path. */
  function ResolveYuvFormat(format: int, usage: bv32): (r: int)
    ensures format != FormatImplementationDefined ==> r == format
    ensures r != format ==> r == FormatYCbCr422I || r == FormatExynosYv12 || r == FormatYCbCr420Sp
    // priority 1: every camera zero-shutter-lag bit
    ensures format == FormatImplementationDefined && usage & UsageHwCameraZsl == UsageHwCameraZsl ==>
              r == FormatYCbCr422I
    // priority 2: texture
    ensures (format == FormatImplementationDefined && usage & UsageHwCameraZsl != UsageHwCameraZsl &&
             Has(usage, UsageHwTexture)) ==> r == FormatExynosYv12
    // priority 3: video encoder
    ensures (format == FormatImplementationDefined && usage & UsageHwCameraZsl != UsageHwCameraZsl &&
             !Has(usage, UsageHwTexture) && Has(usage, UsageHwVideoEncoder)) ==> r == FormatYCbCr420Sp
    // otherwise unresolved
    ensures (usage & UsageHwCameraZsl != UsageHwCameraZsl && !Has(usage, UsageHwTexture) &&
             !Has(usage, UsageHwVideoEncoder)) ==> r == format
  {
    if format == FormatImplementationDefined then
      if usage & UsageHwCameraZsl == UsageHwCameraZsl then FormatYCbCr422I
      else if Has(usage, UsageHwTexture) then FormatExynosYv12
      else if Has(usage, UsageHwVideoEncoder) then FormatYCbCr420Sp
      else format
    else format
  }

  /** Extra kernel flags `gralloc_alloc` derives from the usage. */
  function CacheFlags(usage: bv32): (f: bv32)
    ensures f == IonFlagCached | IonFlagCachedNeedsSync <==> usage & UsageSwReadMask == UsageSwReadOften
    ensures f & !IonCacheMask == 0
    ensures f == 0 <==> usage & UsageSwReadMask != UsageSwReadOften
  {
    if usage & UsageSwReadMask == UsageSwReadOften then IonFlagCached | IonFlagCachedNeedsSync else 0
  }

  /** Colour metadata of a YUV handle. */
  function YuvColor(usage: bv32): (c: (Chroma, Gamut))
    ensures c == (Bt601_8, Narrow8) <==> Has(usage, UsagePrivateChroma)
    ensures c == (Bt709_8, Wide8) <==> !Has(usage, UsagePrivateChroma)
  {
    if Has(usage, UsagePrivateChroma) then (Bt601_8, Narrow8) else (Bt709_8, Wide8)
  }

  /**
   * `ALIGN(x, 16)`: the smallest multiple of 16 that is at least `x`.
   * Clearing the low bits of a two's-complement int rounds toward negative
   * infinity, which is what Dafny's division by a positive constant does.
   */
  function Align16(x: int): (r: int)
    ensures r % 16 == 0
    ensures x <= r < x + 16
  {
    ((x + 15) / 16) * 16
  }
}
