# Exynos gralloc allocator core, modelled in Dafny

This project models the buffer allocator of an Exynos graphics memory
allocator HAL module (`gralloc/gralloc.cpp`). Clients open a device
context, allocate graphics buffers with a width, height, pixel format and
usage bit mask, and later free them. Buffers come from ION, the kernel's
memory allocator: each allocation asks ION for one buffer per plane and
gets back a file descriptor per plane. A buffer handle records those
descriptors and the buffer's geometry.

What is modelled:

- `Defs`: the ION heap ids, heap and flag masks (as `#define`d in the
  source), the usage bits and pixel formats as named constants, and the
  colour metadata values of a YUV handle.
- `Policy`: the pure decisions. These are heap selection, the RGB path's
  RGBA-to-BGRA coercion and its refusal of encoder buffers with software
  access, the 1 MiB alignment and kernel flags for protected content, the
  resolution of the implementation-defined format, the 16-aligned stride
  preset, the cache flags derived from the usage, and the colour metadata.
- `Handles`: the buffer handle value, the descriptors it owns, and the
  results of the layout helpers.
- `Ion`: the kernel side as a `Kernel` class. It holds the process's open
  descriptors (ION connections and buffers), a log of every allocation
  request and a log of the kernel's answer to each. Whether the kernel
  grants a request is left open, so every method is proved for every
  kernel answer, and the contracts read what happened off the two logs.
- `Gralloc`: the RGB path, the framework (single-plane) YUV path, the
  multi-plane YUV path with its rollback, `gralloc_alloc` (RGB first, YUV
  on failure, registration, cleanup) and `gralloc_free`.
- `Device`: the reference-counted device context (`private_module_t`),
  with `gralloc_device_open`'s counting part and `gralloc_close`. An
  abstract `Lifecycle` state and `Run` over any sequence of client opens
  and closes carry the lifecycle properties.

The layout helpers (`handle_rgb_format`, `handle_yuv_format`,
`handle_framework_yuv_format`), `private_handle_t::validate` and
`gralloc_register_buffer` are passed to the methods as functions. Their
bodies live in files that are not part of this model. The handle
constructors are in `gralloc_priv.h`, which is not part of this model
either. The model assumes they record an absent second or third
descriptor as -1 and leave the colour metadata unset.

`gralloc_alloc_rgb` builds a handle even when `ion_alloc_fd` fails
(`gralloc/gralloc.cpp` lines 172-177), while the framework YUV path checks
the result first (lines 192-196). `Gralloc.AllocRgb` and `Gralloc.Alloc`
model the code as written. See "## Findings".

## Model

| member | source | states |
|---|---|---|
| Policy.SelectHeap | gralloc/gralloc.cpp:129-139 | the mask is the contiguous-heap mask exactly when the usage is protected; otherwise it has no contiguous bit |
| Policy.SelectHeapChoosesHeaps | gralloc/gralloc.cpp:129-139 | a protected buffer may come from the contiguous Exynos heap and no other; any other buffer may come from the system or the chunk heap and no third one |
| Policy.CoerceRgbFormat | gralloc/gralloc.cpp:148-161 | RGBA for a framebuffer target becomes BGRA, software bits or not; RGBA for an encoder becomes BGRA, or is refused with software access; that is the only refusal and the only rewrite |
| Policy.RgbAlignment | gralloc/gralloc.cpp:144-168 | the RGB alignment is 1 MiB exactly for protected usage and 0 otherwise |
| Policy.RgbIonFlags | gralloc/gralloc.cpp:167-170 | protected usage adds the display-protection bit; no other bit changes, and nothing changes otherwise |
| Policy.ResolveYuvFormat | gralloc/gralloc.cpp:211-220 | only the implementation-defined format is rewritten, by priority: all ZSL bits, then texture, then encoder; otherwise it passes through |
| Policy.Align16 | gralloc/gralloc.cpp:209 | the preset stride is the least multiple of 16 that is at least the width |
| Policy.YuvIonFlags | gralloc/gralloc.cpp:227-228 | protected usage adds the MFC-output bit; no other bit changes, and nothing changes otherwise |
| Policy.CacheFlags | gralloc/gralloc.cpp:283-284 | cached with explicit sync exactly when the software-read bits equal "read often"; otherwise no flag, and never a bit outside the two cache flags |
| Policy.YuvColor | gralloc/gralloc.cpp:252-261 | BT.601 narrow exactly when the private-chroma bit is set, BT.709 wide exactly when it is not |
| Handles.SinglePlane | gralloc/gralloc.cpp:234-235 | the one-descriptor handle describes the buffer, owns exactly its descriptor, and has no second or third descriptor |
| Handles.DoublePlane | gralloc/gralloc.cpp:248-249 | the two-descriptor handle describes the buffer, has no third descriptor, and owns exactly its two descriptors when the second is present |
| Handles.TriplePlane | gralloc/gralloc.cpp:245-246 | the three-descriptor handle describes the buffer, records all three descriptors, and owns exactly those three when all are present |
| Handles.OwnedFds | gralloc/gralloc.cpp:309-313 | the descriptors closed for a handle: always the first, the other two exactly when not negative |
| Handles.PlaneCount | gralloc/gralloc.cpp:233-251 | one descriptor for one plane, three for three, two for any other plane count |
| Ion.Kernel.Open | gralloc/gralloc.cpp:384 | `ion_open` either opens a new connection descriptor or fails with nothing opened |
| Ion.Kernel.AllocFd | gralloc/gralloc.cpp:172-173 | each call and the kernel's answer are logged; success opens one fresh buffer descriptor; failure opens nothing and leaves the caller's descriptor variable as it was; it cannot succeed on a non-connection |
| Ion.Kernel.Close | gralloc/gralloc.cpp:350 | `close` removes exactly that descriptor |
| Gralloc.PlaneRequests | gralloc/gralloc.cpp:230-243 | one request per plane, luma size first, chroma size for the others, all on the connection with the selected heaps, no alignment and the YUV flags |
| Gralloc.PlaneHandle | gralloc/gralloc.cpp:233-261 | the handle built for the plane count describes the buffer, carries the colour metadata, and owns exactly the descriptors allocated |
| Gralloc.AllocRgb | gralloc/gralloc.cpp:141-178 | as written: a refused format gives -EINVAL and a layout error its own error, with no request and no handle; otherwise exactly one request with the layout's size, the RGB alignment, heaps and flags, its answer is the result, and a single-plane handle over the coerced format and the layout's stride and vertical stride is built whatever the answer: around a fresh descriptor on success, around the stale one on refusal |
| Gralloc.AllocFrameworkYuv | gralloc/gralloc.cpp:180-198 | a layout error requests nothing; otherwise one request with no alignment; a handle, with the helper's stride and vertical stride h, exactly on success; a failure opens nothing |
| Gralloc.AcquireChroma | gralloc/gralloc.cpp:237-265 | the chroma planes are requested in order and stop at the first refusal: every request but the last was granted, and the last was granted exactly on success; a refused second chroma plane closes the first, so failure leaves the descriptors as they were |
| Gralloc.AcquirePlanes | gralloc/gralloc.cpp:230-268 | luma first, then chroma, stopping at the first refusal: every request but the last was granted, and the last exactly on success; failure closes exactly what this call opened; success opens one fresh, distinct buffer descriptor per plane |
| Gralloc.AllocYuv | gralloc/gralloc.cpp:200-269 | a layout error is returned with no request; otherwise the planes are requested in order with the YUV flags and stop at the first refusal; failure leaves the descriptor table as it was and no handle; success gives a handle over the resolved format with the layout's luma size, stride and vertical stride, the colour metadata, and one fresh descriptor per plane |
| Gralloc.ReleaseHandle | gralloc/gralloc.cpp:309-313 | closes exactly the descriptors the handle owns |
| Gralloc.ReleaseUndoesAdd | gralloc/gralloc.cpp:299-313 | closing the descriptors a successful allocation opened restores the descriptor table (the alloc/free round trip) |
| Gralloc.AllocPaths | gralloc/gralloc.cpp:291-297 | the RGB request comes first when the RGB path reaches the kernel; if the kernel grants it, it is the only request and the result is the RGB handle; otherwise the remaining requests and the result are exactly the multi-plane YUV path's; every request carries the selected heaps and the cache flags; success opens exactly the handle's fresh descriptors; the stale RGB handle survives a kernel refusal of the RGB request followed by a YUV layout error |
| Gralloc.Alloc | gralloc/gralloc.cpp:271-315 | as written: null outputs give -EINVAL with no request; otherwise the requests and the path result are those of `Gralloc.AllocPaths`; the error is the path's, else registration's; outputs exactly on success, and then they are the path's handle and stride; success opens exactly the handle's fresh descriptors; failure opens nothing but closes the stale descriptor when the kernel refused the RGB request and the YUV layout failed |
| Gralloc.AllocRgbChecked | gralloc/gralloc.cpp:172-177 | corrected: the same request and answer as `Gralloc.AllocRgb`, and a handle, the RGB handle, exactly when the kernel granted the buffer; failure opens nothing |
| Gralloc.AllocPathsChecked | gralloc/gralloc.cpp:291-297 | corrected path selection: the same requests and results, read off the logs, as `Gralloc.AllocPaths`; success opens exactly the handle's descriptors; failure leaves no handle and the descriptor table as it was |
| Gralloc.AllocChecked | gralloc/gralloc.cpp:271-315 | corrected: as `Gralloc.Alloc`, but every failure leaves the descriptor table exactly as it was, and the ION connections never change |
| Gralloc.Free | gralloc/gralloc.cpp:317-337 | a handle that does not validate gives -EINVAL and nothing is closed; otherwise 0, and exactly the handle's descriptors are closed |
| Device.RunCounts | gralloc/gralloc.cpp:341-394 | over any sequence of opens and closes, the count is opens minus closes, and no connection stays open with no client |
| Device.RunDefinedIffNeverUnderflows | gralloc/gralloc.cpp:347-348 | a sequence reaches the fatal close exactly when some prefix closes more clients than were attached |
| Device.BalancedRunEndsIdle | gralloc/gralloc.cpp:341-394 | N opens and N matching closes, none before its open, leave no client and the connection closed |
| Device.ConnectedIffAttached | gralloc/gralloc.cpp:349-350 | when every `ion_open` succeeds, the connection is open exactly while some client is attached |
| Device.PrivateModule.constructor | gralloc/gralloc.cpp:122-124 | the context starts with no client and no connection |
| Device.PrivateModule.DeviceOpen | gralloc/gralloc.cpp:361-394 | a name other than GPU0 gives -EINVAL and changes nothing; GPU0 gives 0, attaches a client, and only the first client opens the connection |
| Device.PrivateModule.Close | gralloc/gralloc.cpp:341-359 | a null context changes nothing; otherwise one client detaches and the last one closes the connection; always 0 |

## Left out

- The HAL module and device tables, `malloc`/`memset`/`free` of the device context, and the returned `hw_device_t`: they only wire the entry points together.
- The mutex around the reference count: the model is sequential, so each open and close is one atomic step.
- Logging (`ALOGW_IF`, `ALOGV`, `ALOGE`): it has no effect on results.
- The bodies of the layout helpers, `private_handle_t::validate` and `gralloc_register_buffer`: they are in files not part of this model, and are passed in as functions.
- `gralloc_unregister_buffer` in `gralloc_free`: its result is ignored by the source, and its effect on the graphics stack is outside the core.
- `handle_yuv_format` also receives the address of the handle: the model assumes the helper leaves it alone.
- Heap memory of handles (`new`, `delete`): the model does not track that a handle is leaked on the error paths of `gralloc_alloc`.
- Descriptor numbers: the kernel model hands out increasing numbers and never reuses a closed one. The real kernel reuses the lowest free number.
- Numeric values of the usage bits and pixel formats: they are in headers that are not part of this model, so the model keeps them as named constants. The legacy sRGB format numbers (lines 54-55) are not used by the core.
- Integer widths: sizes, strides and dimensions are unbounded integers. The overflow of `w + 15` in `ALIGN` for a width near `INT_MAX` is not modelled.
- Policy.Align16: models `ALIGN(x, 16)` for every integer, with no 32-bit wrap-around.
- Device.PrivateModule.DeviceOpen: a null `name` (which `strcmp` would crash on) is not modelled.
- Device.PrivateModule.Close: requires a client to be attached when a context is passed. The source aborts the process otherwise (line 347). The abstract `Device.Run` models that abort as `None`.
- `gralloc_alloc_framework_yuv` is not called by `gralloc_alloc` in this source. `Gralloc.AllocFrameworkYuv` models it on its own.
- `fb_device_open`, `gralloc_lock`, `gralloc_unlock` and the framebuffer fields of the module: they are outside the allocation core.
- Double free of a handle: `Gralloc.Free` closes whatever the handle names, as the source does, and nothing detects a second free.

## Findings

| source | as written | input that shows it | evidently intended | confidence | as-written member | corrected member |
|---|---|---|---|---|---|---|
| gralloc/gralloc.cpp:172-177, 306-313 | `gralloc_alloc_rgb` builds the handle right after `ion_alloc_fd` whether or not it succeeded. On failure the handle holds the uninitialised local `fd`. If the YUV fallback then fails too, `gralloc_alloc`'s error path closes that stale number, which can be any open descriptor of the process, such as the shared ION connection. | an RGB format whose layout is accepted, a kernel refusal of the RGB buffer (for example, the heap is exhausted), and a YUV layout that rejects the RGB format | build the handle only when `ion_alloc_fd` returned 0, as the framework YUV path does; a failed allocation then closes nothing it did not open | not executed | Gralloc.Alloc | Gralloc.AllocChecked |
