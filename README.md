# Real-world overlay: pixel-to-ground projection and annotation probe

This project models the core of a DeepStream application that labels each detected object in a video stream with its estimated position on the ground. It has two parts.

- `projection.dfy`, module `Projection`, models `imageToWorld`. This is a flat-ground affine conversion. A pixel coordinate is normalised to [-0.5, 0.5] around the image centre, scaled by the ground extent ("field of view", in metres) the image spans, and offset by the camera's ground position. `WorldToImage` is its inverse. It does not exist in the source; it is used to prove that the projection is a bijection when both extents are non-zero.
- `overlay.dfy`, module `Overlay`, models the `CameraConfig` record, the hard-coded configuration installed by `main`, and the pad probe `osd_sink_pad_buffer_probe`. Object metadata is a class `ObjectMeta` whose `displayText` field the probe overwrites in place. The probe is a method with two nested loops over a batch's frames and each frame's objects. Its loop invariants say that the objects visited so far carry their label and the rest keep their old text. Its postcondition says that it always returns `Ok`, that every object of every frame is labelled with `WorldLabel(box, cfg)`, and that no box, frame list or object list changes. Its `modifies` clause is empty when the batch is absent, so in that case nothing changes.

All `float` arithmetic is modelled with Dafny's `real`. The rendered label `"X:%.2f Y:%.2f"` is kept abstract as `DisplayText.Position(x, y)`.

The source does no configuration loading or validation: the configuration is hard-coded in `main`. This model follows the code. It has no loader. Instead, the positive resolution the projection needs is a precondition (`ResolutionPositive`), and a positive field of view is a precondition of the lemmas that need it.

## Model

| member | source | states |
|---|---|---|
| `Projection.ImageToWorld` | apps/image_to_world.hpp:5-19 | the world offset from the camera on each axis is the pixel offset from the image centre times field of view over image size |
| `Projection.CentreMapsToCamera` | apps/image_to_world.hpp:9-16 | the image centre (w/2, h/2) projects exactly onto the camera position (cam_x, cam_y) |
| `Projection.CornersMapToHalfFov` | apps/image_to_world.hpp:9-16 | pixel (0, 0) projects to (cam_x - fov_x/2, cam_y - fov_y/2) and pixel (w, h) to (cam_x + fov_x/2, cam_y + fov_y/2) |
| `Projection.OffsetScales` | apps/image_to_world.hpp:9-16 | scaling the pixel offset from the centre by any k scales the world offset from the camera by k (doubling doubles) |
| `Projection.AxesSeparable` | apps/image_to_world.hpp:9-16 | world x is unchanged when py, the height, fov_y and cam_y change; world y is unchanged when px, the width, fov_x and cam_x change |
| `Projection.Monotone` | apps/image_to_world.hpp:9-15 | with positive field of view, px1 <= px2 iff world_x1 <= world_x2, and likewise for y |
| `Projection.Bounded` | apps/image_to_world.hpp:9-16 | with positive field of view, 0 <= px <= w iff world x lies within fov_x/2 of cam_x, and likewise for y |
| `Projection.AxisBounded` | apps/image_to_world.hpp:9-15 | one axis of the bound: the pixel is inside [0, extent] iff its scaled centre offset is within half the field of view |
| `Projection.WorldToImageInvertsProjection` | apps/image_to_world.hpp:9-16 | with non-zero field of view, mapping a projected point back gives the original pixel, so the projection is injective |
| `Projection.ProjectionInvertsWorldToImage` | apps/image_to_world.hpp:9-16 | with non-zero field of view, every ground point is the projection of some pixel, so the projection is surjective |
| `Overlay.DefaultConfig` | apps/main.cpp:54-64 | the installed configuration (3848 x 2168, camera at 0.75 m, 0 m) has a positive resolution and a positive field of view, so the probe, Monotone and Bounded apply to it |
| `Overlay.Centre` | apps/main.cpp:36-37 | the box centre lies midway between the left and right edges and midway between the top and bottom edges |
| `Overlay.WorldLabel` | apps/main.cpp:36-41 | the label of a box is a ground position whose offset from the camera (pos_x, pos_y) is the box centre's offset from the configured image centre, scaled by fov over resolution on each axis |
| `Overlay.OsdSinkPadBufferProbe` | apps/main.cpp:21-48 | returns Ok; with no batch, changes nothing; otherwise labels every object of every frame with the projection of its own box centre, and leaves boxes, frame lists and object lists unchanged |
| `Overlay.NoDetectionsNoObjects` | apps/main.cpp:30-45 | a batch whose frames have no objects gives the probe nothing it may modify |
| `Overlay.WorldLabelIgnoresRotationAndHeight` | apps/main.cpp:39 | changing rot_x, rot_y, rot_z or pos_z leaves every label unchanged |
| `Overlay.CentredBoxLabelledWithCameraPosition` | apps/main.cpp:36-39 | a box centred on the configured image centre is labelled with the camera's ground position |
| `Overlay.DefaultConfigCentredBox` | apps/main.cpp:54-64 | with the installed configuration, a box centred on (1924, 1084) is labelled with position (0.75, 0.0) |
| `Overlay.FullHdScenario` | apps/main.cpp:36-43 | with a 1920 x 1080, 2.0 m x 1.5 m configuration, box (860, 480, 200, 120) is labelled (0, 0) and box (0, 0, 0, 0) is labelled (-1.0, -0.75) |
| `Overlay.AnnotateCentredBox` | apps/main.cpp:30-47 | running the probe with the installed configuration on one frame with one centred box returns Ok, labels that object (0.75, 0.0) and leaves its box as it was |
| `Overlay.EmptyBatchChangesNothing` | apps/main.cpp:30-47 | on a batch with no frames, the probe returns Ok and an object's display text is the same after as before |
| `Overlay.AbsentBatchChangesNothing` | apps/main.cpp:25-28 | with no batch metadata, the probe returns Ok and an object's display text is the same after as before |

## Left out

- Pipeline plumbing in `main` (pipeline construction, element and pad lookup, probe registration, state changes, the main loop, teardown; apps/main.cpp:66-100) is framework I/O and is not modelled.
- `gst_buffer_get_nvds_batch_meta` is a foreign call. Its result is the probe's `Option<BatchMeta>` parameter. The `pad` and `info` arguments are not modelled.
- Float rounding is not modelled. Every equality is proved over `real`, and none is claimed to hold bit-exactly in IEEE `float`. The installed field-of-view constants are the decimal literals of the source, not their nearest `float` values.
- Text rendering (`snprintf` with `%.2f`), the 64-byte `g_malloc0` buffer and the ownership hand-over of that buffer to the metadata are not modelled. The label is the abstract `Position(x, y)`.
- `Projection.ImageToWorld`: requires a positive width and height. The source does not check them; in `float` a zero size gives an infinite or NaN result, which the model does not represent.
- The streamed resolution (1920 x 1080, apps/main.cpp:69, 72) differs from the configured resolution (3848 x 2168). The model projects against the configured resolution, as the code does, and does not reconcile the two.
- The linked lists `frame_meta_list` and `obj_meta_list` are modelled as sequences. List cells and their `next` pointers are not modelled.
- Concurrency is not modelled. The probe runs on a streaming thread and holds a raw pointer to a stack-allocated configuration.
- Configuration loading and validation do not exist in the code, so they are not modelled.
