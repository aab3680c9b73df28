/**
 * Buffer handles and the results of the layout helpers.
 *
 * A handle is a value: the allocator builds it from one, two or three
 * descriptors plus the buffer's geometry. An absent second or third
 * descriptor is -1. The layout helpers (`handle_rgb_format`,
 * `handle_yuv_format`, `handle_framework_yuv_format`) are not part of this
 * model; the allocator receives them as functions, and their results carry
 * the helper's return code next to its outputs, as the C calls do.
 */
module Handles {
  import opened Defs

  datatype Handle = Handle(
    fd: int, fd1: int, fd2: int,
    size: int, usage: bv32,
    width: int, height: int, format: int,
    stride: int, vstride: int,
    chroma: Chroma, gamut: Gamut)

  /** The handle records the buffer it was built for. */
  predicate Describes(hnd: Handle, size: int, usage: bv32, w: int, h: int, format: int, stride: int, vstride: int) {
    hnd.size == size && hnd.usage == usage && hnd.width == w && hnd.height == h &&
    hnd.format == format && hnd.stride == stride && hnd.vstride == vstride
  }

  /** The one-descriptor handle. */
  function SinglePlane(fd: int, size: int, usage: bv32, w: int, h: int, format: int, stride: int, vstride: int): (hnd: Handle)
    ensures Describes(hnd, size, usage, w, h, format, stride, vstride)
    ensures hnd.fd == fd && hnd.fd1 < 0 && hnd.fd2 < 0
    ensures hnd.chroma == ChromaUnset && hnd.gamut == GamutUnset
    ensures OwnedFds(hnd) == {fd}
  {
    Handle(fd, -1, -1, size, usage, w, h, format, stride, vstride, ChromaUnset, GamutUnset)
  }

  /** The two-descriptor handle (luma, interleaved chroma). */
  function DoublePlane(fd: int, fd1: int, size: int, usage: bv32, w: int, h: int, format: int, stride: int, vstride: int): (hnd: Handle)
    ensures Describes(hnd, size, usage, w, h, format, stride, vstride)
    ensures hnd.fd == fd && hnd.fd1 == fd1 && hnd.fd2 < 0
    ensures hnd.chroma == ChromaUnset && hnd.gamut == GamutUnset
    ensures fd1 >= 0 ==> OwnedFds(hnd) == {fd, fd1}
  {
    Handle(fd, fd1, -1, size, usage, w, h, format, stride, vstride, ChromaUnset, GamutUnset)
  }

  /** The three-descriptor handle (luma and two chroma planes). */
  function TriplePlane(fd: int, fd1: int, fd2: int, size: int, usage: bv32, w: int, h: int, format: int, stride: int, vstride: int): (hnd: Handle)
    ensures Describes(hnd, size, usage, w, h, format, stride, vstride)
    ensures hnd.fd == fd && hnd.fd1 == fd1 && hnd.fd2 == fd2
    ensures hnd.chroma == ChromaUnset && hnd.gamut == GamutUnset
    ensures fd1 >= 0 && fd2 >= 0 ==> OwnedFds(hnd) == {fd, fd1, fd2}
  {
    Handle(fd, fd1, fd2, size, usage, w, h, format, stride, vstride, ChromaUnset, GamutUnset)
  }

  /**
   * The descriptors the allocator closes for a handle: always the first,
   * the other two only when they are not negative.
   */
  function OwnedFds(hnd: Handle): (s: set<int>)
    ensures hnd.fd in s
    ensures hnd.fd1 >= 0 ==> hnd.fd1 in s
    ensures hnd.fd2 >= 0 ==> hnd.fd2 in s
    ensures forall x :: x in s ==> x == hnd.fd || (x >= 0 && (x == hnd.fd1 || x == hnd.fd2))
  {
    {hnd.fd} + (if hnd.fd1 >= 0 then {hnd.fd1} else {}) + (if hnd.fd2 >= 0 then {hnd.fd2} else {})
  }

  /**
   * Number of descriptors the multi-plane path allocates for the plane
   * count reported by the layout helper: one for 1, three for 3, and two
   * for any other value.
   */
  function PlaneCount(planes: int): (n: int)
    ensures 1 <= n <= 3
    ensures n == 1 <==> planes == 1
    ensures n == 3 <==> planes == 3
  {
    if planes == 1 then 1 else if planes == 3 then 3 else 2
  }

  /** Result of `handle_rgb_format(w, h, format, usage, ...)`. */
  datatype RgbLayout = RgbLayout(err: int, stride: int, size: int, bpr: int, bpp: int, vstride: int)

  /** Result of `handle_yuv_format(ionfd, w, h, format, usage, ion_flags, ..., stride, ...)`. */
  datatype YuvLayout = YuvLayout(err: int, stride: int, lumaVstride: int, lumaSize: int, chromaSize: int, planes: int)

  /** Result of `handle_framework_yuv_format(w, h, format, ...)`. */
  datatype FrameworkLayout = FrameworkLayout(err: int, stride: int, size: int)

  /** (w, h, format, usage) */
  type RgbLayoutFn = (int, int, int, bv32) -> RgbLayout

  /** (ionfd, w, h, format, usage, ion_flags, preset stride) */
  type YuvLayoutFn = (int, int, int, int, bv32, bv32, int) -> YuvLayout

  /** (w, h, format) */
  type FrameworkLayoutFn = (int, int, int) -> FrameworkLayout
}
