# Ray tracing renderer: a Dafny model

This project models the renderer of a small interactive CPU ray tracer
(`Renderer.cpp`). Every frame, the renderer does the following:

- It traces one ray per pixel against a scene of spheres. The nearest sphere in
  front of the ray wins. A ray that misses every sphere takes the sky colour.
- It bounces each ray up to five times and halves the attenuation at every hit.
- It adds each pixel's colour into a running sum per pixel, the accumulation
  buffer.
- It shows the sum divided by the frame index, clamped to [0, 1] and packed
  into one RGBA word.

The frame index then moves on: it goes up by one while accumulation is on and
goes back to 1 otherwise. `OnResize` reallocates the two per-pixel buffers and
renumbers the row and column iterator vectors.

Colours, distances and vectors are exact reals. Bytes and packed words are
integers in range. The square root and `glm::normalize` are function
parameters, so every property proved about `TraceRay` and `ClosestHit` holds
for any root and any normalisation the caller supplies.

Modules, one per file:

| file | module | contents |
|---|---|---|
| `wrappers.dfy` | `Wrappers` | `Option` |
| `geometry.dfy` | `Geometry` | `Vec3` and `Vec4` algebra, and the clamp of a colour to the unit cube |
| `pixel.dfy` | `Pixel` | `Utils::ConvertToRGBA`: the byte conversion, packing and unpacking |
| `intersection.dfy` | `Intersection` | `TraceRay`, `ClosestHit`, `Miss` and the per-sphere quadratic |
| `shading.dfy` | `Shading` | the bounce loop of `PerPixel` and the path colour it computes |
| `accumulation.dfy` | `Accumulation` | what one frame does to the sums and the image, and what a run of frames adds up to |
| `renderer.dfy` | `Rendering` | class `Renderer`: the buffers as arrays, `OnResize`, `Render`, `ResetFrameIndex` |

## Model

| member | source | states |
|---|---|---|
| Pixel.ToByte | raytracing/src/Renderer.cpp:11-14 | `(uint8_t)(c * 255)`: for c >= 0 the byte b satisfies b <= 255c < b + 1, so it is floor(255c); the byte is 0 when c <= 0 and 255 when c = 1 |
| Pixel.ChannelsOfPack | raytracing/src/Renderer.cpp:16 | the packed word `(a<<24)\|(b<<16)\|(g<<8)\|r` gives back r from bits 0-7, g from bits 8-15, b from bits 16-23 and a from bits 24-31 |
| Pixel.PackOfChannels | raytracing/src/Renderer.cpp:16 | every 32-bit word is the packing of its own four bytes, so packing is a bijection onto words below 2^32 |
| Pixel.ConvertToRGBAChannels | raytracing/src/Renderer.cpp:9-18 | each byte lane of `ConvertToRGBA(color)` holds the truncated byte of the matching channel: red in the low byte, alpha in the high byte |
| Pixel.UnitCubeConvertible | raytracing/src/Renderer.cpp:11-14 | a colour clamped to [0, 1], as Render passes it, converts without overflowing any byte |
| Geometry.ClampUnit | raytracing/src/Renderer.cpp:88 | a clamped channel is in [0, 1]; it is left alone inside, becomes 0 below and 1 above |
| Geometry.Clamp | raytracing/src/Renderer.cpp:88 | the clamped colour lies in the unit cube, and a colour already inside is unchanged |
| Intersection.NearRoot | raytracing/src/Renderer.cpp:149-160 | a sphere has a candidate if and only if the discriminant is non-negative and the direction is non-zero; the candidate t solves 2at = -b - sqrt(disc) |
| Intersection.NearRootOnSphere | raytracing/src/Renderer.cpp:149-160 | with an exact square root, the point at the candidate distance lies on the sphere: \|o + t d\|^2 = radius^2 |
| Intersection.Miss | raytracing/src/Renderer.cpp:193-198 | a miss carries distance exactly -1 |
| Intersection.ClosestHit | raytracing/src/Renderer.cpp:176-191 | the hit keeps the given distance and index; its position is origin + t * direction, and its normal is the normalised offset of that position from the sphere's centre |
| Intersection.TraceRay | raytracing/src/Renderer.cpp:142-174 | it misses, and returns exactly `Miss`, if and only if no sphere has a candidate in (0, FLT_MAX), so an empty scene always misses; on a hit, the index is valid and its candidate is the returned distance, which is positive and no greater than every accepted candidate; every qualifying sphere before the returned index has a strictly larger candidate, so ties go to the first sphere; the result is `ClosestHit` at that sphere |
| Intersection.UnitSphereFromThree | raytracing/src/Renderer.cpp:149-191 | a unit sphere at the origin seen from (0, 0, 3) along -z is hit at distance 2, at the point (0, 0, 1) |
| Shading.LightIntensity | raytracing/src/Renderer.cpp:125 | the Lambert term `max(dot(normal, -lightDir), 0)`: it equals the dot product when that is non-negative and 0 when it is negative |
| Shading.PerPixel | raytracing/src/Renderer.cpp:103-140 | the bounce loop returns the path colour of its five trace results with full attenuation at the start, and alpha 1 |
| Shading.PathStopsAtMiss | raytracing/src/Renderer.cpp:117-121 | bounces after the first miss contribute nothing, because the loop breaks there |
| Shading.PathBounded | raytracing/src/Renderer.cpp:119-133 | with diffuse colours in [0, 1] and a Lambert term at most 1, each channel of the path colour lies in [0, 2m] for starting attenuation m, because the sky is at most 1 and the attenuation halves at each hit |
| Accumulation.NextFrameIndex | raytracing/src/Renderer.cpp:97-100 | the next frame index is one more while accumulating and 1 otherwise, so it is never 0 and the division by it is defined |
| Accumulation.AccumulateFrame | raytracing/src/Renderer.cpp:55-56 | the sums after one frame: at frame index 1 they are exactly the frame's colours, whatever the buffer held (the memset, then the `+=` of line 83); at any other index each slot has its own pixel's colour added |
| Accumulation.ShownChannels | raytracing/src/Renderer.cpp:85-89 | each byte lane of a shown pixel is the truncated byte of that channel's sum divided by the frame index and clamped to [0, 1] |
| Accumulation.ReplayIsSum | raytracing/src/Renderer.cpp:55-56 | after k accumulating frames starting at frame index 1, each slot holds the sum of its k colours |
| Accumulation.DisplayIsClampedMean | raytracing/src/Renderer.cpp:83-89 | after k accumulating frames starting at frame index 1, each pixel shows the packed, clamped mean of its k colours |
| Accumulation.OpaqueFramesShowOpaque | raytracing/src/Renderer.cpp:83-89 | if every frame gives a pixel alpha 1, as PerPixel always does, the displayed alpha byte of that pixel is 255 |
| Accumulation.AlphaCountShowsOpaque | raytracing/src/Renderer.cpp:85-89 | an alpha sum equal to the frame index is shown as alpha byte 255 |
| Accumulation.StaleIndexHalvesFirstFrame | raytracing/src/Renderer.cpp:55-56 | at frame index 2, a white frame added to a reallocated slot that reads zero is shown as byte 127 in every channel; at frame index 1 it is shown as 255 |
| Rendering.ResizeAndNumber | raytracing/src/Renderer.cpp:42-47 | an iterator vector that is resized and then numbered holds exactly 0, 1, ..., n-1 |
| Rendering.SlotInBounds | raytracing/src/Renderer.cpp:83 | for x < width and y < height, the slot x + y * width lies inside the width * height buffers |
| Rendering.SlotsDistinct | raytracing/src/Renderer.cpp:80-90 | two different pixels never share a slot |
| Rendering.SlotOfPixel | raytracing/src/Renderer.cpp:80-90 | every slot of the buffers is the slot of one pixel (j mod width, j div width), so the loops reach every slot |
| Rendering.Renderer.constructor | raytracing/src/Renderer.h:14 | a new renderer has no image yet and frame index 1 |
| Rendering.Renderer.OnResize | raytracing/src/Renderer.cpp:21-48 | afterwards the image exists and has the new size; with the same size and an existing image, neither buffer nor iterator changes; otherwise both buffers are freshly allocated with width * height slots of unspecified contents, and the iterators are exactly [0, width) and [0, height); the frame index is kept in both cases |
| Rendering.Renderer.ResetFrameIndex | raytracing/src/raytracing.cpp:63 | the next frame starts a new accumulation |
| Rendering.Renderer.Render | raytracing/src/Renderer.cpp:50-101 | the accumulation buffer becomes the old sums plus the frame, with the old sums read as zero at frame index 1; the image becomes the display of the new sums at the old frame index; the frame index moves on as `NextFrameIndex` says |
| Rendering.Renderer.ClearAccumulation | raytracing/src/Renderer.cpp:55-56 | every slot of the accumulation buffer is zero |
| Rendering.Renderer.AccumulateRows | raytracing/src/Renderer.cpp:78-91 | every slot has its pixel's colour added once, and every image word shows its slot's sum divided by the frame index, clamped and packed |
| Rendering.Renderer.AccumulateRow | raytracing/src/Renderer.cpp:80-90 | one row of the inner loop updates exactly the slots y * width up to (y + 1) * width, and no other slot of either buffer changes |
| Rendering.OnResizeRestarting | raytracing/src/Renderer.cpp:21-48 | the corrected resize: the image has the new size and the accumulate setting is kept; after any reallocation the frame index is 1, and an unchanged size changes nothing |
| Rendering.ResizeThenRender | raytracing/src/Renderer.cpp:50-91 | with the corrected resize, the first frame after a change of size leaves exactly its own colours in the sums and shows them clamped, whatever the new buffers held |
| Rendering.ResizeMidAccumulation | raytracing/src/Renderer.cpp:21-48 | OnResize as written, in a run: after one accumulated frame at 1 x 1 and a resize to 2 x 1, the next frame is added to the unspecified contents of the new buffer and shown divided by the stale frame index 2 |

## Left out

- Floating-point rounding: `float` and glm vectors are exact reals, and `FLT_MAX` is an exact constant.
- The square root and `glm::normalize` are function parameters. `Intersection.NearRootOnSphere` assumes only that the root squares back to the discriminant.
- Intersection.NearRoot: a direction of length zero is treated as no candidate. In floating point the quotient is an infinity or NaN, which the test `t > 0 && t < hitDistance` always rejects, so no information is lost.
- Intersection.Miss: the source sets only the distance and leaves the other fields uninitialised. The model fills them with zeros, and no contract depends on them.
- Shading.PerPixel: the five `TraceRay` results are an input, in bounce order. The next ray is computed by `glm::reflect` with a random roughness jitter (`Walnut::Random`), and that step is not modelled. The camera's ray direction table is not part of this model either.
- Shading.PerPixel: the light direction is an input, already normalised. The source computes it as `normalize(-1, -1, -1)`.
- Rendering.Renderer.Render: the frame's pixel colours come in as a row-major sequence, in place of calls to `PerPixel`.
- The `std::execution::par` branch (lines 60-75) is not modelled, because it is concurrent. It performs the same per-pixel steps on distinct slots (`Rendering.SlotsDistinct`).
- `Walnut::Image`: its allocation, `Resize` and `SetData`. Only whether the image exists and its size are kept, as `hasImage`, `width` and `height`.
- `width * height` is computed in 32 bits in the source and could wrap for huge viewports. The model does not bound it.
- The declaration of the frame index is not part of this model, so its width and initial value are unknown. The model keeps it unbounded. `Rendering.Renderer.constructor` starts it at 1, the value `ResetFrameIndex` restores.
- `#define MT 1` selects the parallel branch at build time; the model follows the sequential loop that the other setting selects.
- The `Accumulate` setting is a field set at construction. The ImGui checkbox that toggles it is not modelled.
- C++ shifts a promoted `int`, so `a << 24` with a >= 128 overflows a signed `int`. The model takes the intended unsigned 32-bit result.

## Findings

| source | as written | input that shows it | evidently intended | confidence | as-written member | corrected member |
|---|---|---|---|---|---|---|
| raytracing/src/Renderer.cpp:21-48 | `OnResize` reallocates the accumulation buffer without zeroing it, and keeps the frame index. Zeroing happens only at frame index 1 (line 55), so after a resize during accumulation the next frame adds to uninitialised memory and divides by the stale index (`Rendering.ResizeMidAccumulation` states this call sequence on the renderer). | Accumulation on, frame index 2, a resize, then a white frame. Even if the new buffer happens to read zero, the pixel shows byte 127 in place of 255; in general it shows garbage until the next reset. | A resize restarts accumulation: the frame index goes back to 1, so the next frame clears the buffer and shows exactly its own colours. | medium, not executed | Accumulation.StaleIndexHalvesFirstFrame | Rendering.ResizeThenRender |
