# Face landmark detector: a verified model

This project models `FaceLandmarkDetector`, the core of a real-time face
landmark pipeline. Each frame, the detector runs a 192x192 image through a
preprocess compute kernel, a neural-network worker and a postprocess kernel. The
postprocess kernel leaves 468 landmark records of four floats in a device vertex
buffer. The host can read a copy of that buffer through a lazily refreshed
readback cache.

The model has four modules:

- `Shapes` (`shapes.dfy`): the fixed sizes. It holds the vertex count (468), the
  image size (192), the record stride (16 bytes) and the thread-group counts of
  the two dispatches. It also holds the two input tensor layouts, (1,3,192,192)
  and (1,192,192,3), and their element count.
- `Device` (`device.dfy`): stand-ins for the engine and library objects the
  detector owns: the worker, the input tensor and its device storage, and the
  structured vertex buffer. It also gives what a one-dimensional dispatch leaves
  in that buffer, and the blocking `GetData` copy.
- `Readback` (`readback.dfy`): the readback cache as a state machine on values.
  The state is the device buffer, the host copy, the fresh flag and a count of
  readbacks. `AfterProcess` and `AfterRead` are its two steps, and `Run` makes a
  sequence of client calls. The lemmas about any such sequence live here: no
  stale frame, invalidation, idempotent reads, and at most one readback per frame.
- `FaceLandmark` (`detector.dfy`): the class `FaceLandmarkDetector<V>`. Its
  fields are those of the C# class. Ghost fields record the objects allocated at
  construction, whether the detector is disposed, the GPU commands submitted and
  the releases performed. The readback count is the vertex buffer's count of
  `GetData` calls. `Valid()` is the object invariant, and `Cache()` maps the
  object onto the `Readback` state. `ProcessImage` and `VertexArray` are
  specified by the matching `Readback` step (`AfterProcess` and `AfterRead`).
  The constructor, `UpdatePostReadCache`, `Dispose` and the release helpers
  have direct contracts on the new state.

What is opaque, and why:

- The landmark record type `V` is a type parameter, so no floating point is
  involved.
- `ProcessImage` takes `frame`: the 468 records the postprocess kernel computes
  for this image. The image, the preprocessing and the inference stay opaque.
- A new vertex buffer's initial device memory is a constructor parameter.
- The two compile-time library branches become a `Layout` value fixed at
  construction.

## Model

| member | source | states |
|---|---|---|
| `Shapes.GroupCount` | Packages/jp.keijiro.mediapipe.facelandmark/Script/FaceLandmarkDetector.cs:105 | integer division of an extent by a group size: the groups never overrun the extent and leave less than one group uncovered |
| `Shapes.PreprocessGroups` | Packages/jp.keijiro.mediapipe.facelandmark/Script/FaceLandmarkDetector.cs:105 | `ImageSize/8` groups per axis tile the 192-pixel axis exactly (24·8 = 192) |
| `Shapes.PostprocessGroups` | Packages/jp.keijiro.mediapipe.facelandmark/Script/FaceLandmarkDetector.cs:115 | `VertexCount/52` groups cover the 468 vertices exactly, with no remainder (9·52 = 468) |
| `Shapes.OutputTextureSize` | Packages/jp.keijiro.mediapipe.facelandmark/Script/FaceLandmarkDetector.cs:112 | the output is copied into a 1-wide, 1404-high texture that holds exactly three floats per vertex |
| `Shapes.PrePassKernel` | Packages/jp.keijiro.mediapipe.facelandmark/Script/FaceLandmarkDetector.cs:95-99 | kernel 0 is used exactly for the channels-last (pre-4.0) layout, kernel 1 otherwise |
| `Shapes.InputShape` | Packages/jp.keijiro.mediapipe.facelandmark/Script/FaceLandmarkDetector.cs:61-71 | both input shapes have batch 1 and the same extents {1, 3, 192, 192}, only in a different order |
| `Shapes.ElementCountPermutation` | Packages/jp.keijiro.mediapipe.facelandmark/Script/FaceLandmarkDetector.cs:61-71 | reordering the extents of a tensor shape never changes its element count |
| `Shapes.InputElementCount` | Packages/jp.keijiro.mediapipe.facelandmark/Script/FaceLandmarkDetector.cs:61-71 | in either layout the input tensor holds 3·192·192 elements |
| `Shapes.InputElementCountAgrees` | Packages/jp.keijiro.mediapipe.facelandmark/Script/FaceLandmarkDetector.cs:61-71 | the layout branch never changes the input element count |
| `Device.DispatchWrite` | Packages/jp.keijiro.mediapipe.facelandmark/Script/FaceLandmarkDetector.cs:114-115 | a dispatch with at least one thread per record replaces every record; with fewer threads the uncovered tail keeps its earlier (stale) values |
| `Device.Worker.constructor` | Packages/jp.keijiro.mediapipe.facelandmark/Script/FaceLandmarkDetector.cs:58 | a worker bound to the given model, not yet released |
| `Device.Worker.Dispose` | Packages/jp.keijiro.mediapipe.facelandmark/Script/FaceLandmarkDetector.cs:79 | the worker records exactly one more release |
| `Device.TensorData.constructor` | Packages/jp.keijiro.mediapipe.facelandmark/Script/FaceLandmarkDetector.cs:62-69 | device storage created with the given tensor shape |
| `Device.Tensor.constructor` | Packages/jp.keijiro.mediapipe.facelandmark/Script/FaceLandmarkDetector.cs:64-70 | a tensor of the given shape attached to the given storage, not yet released |
| `Device.Tensor.Dispose` | Packages/jp.keijiro.mediapipe.facelandmark/Script/FaceLandmarkDetector.cs:82 | the tensor records exactly one more release |
| `Device.ComputeBuffer.constructor` | Packages/jp.keijiro.mediapipe.facelandmark/Script/FaceLandmarkDetector.cs:74 | a buffer of the requested record count and stride, holding the given device memory, not yet released |
| `Device.ComputeBuffer.ReceiveDispatch` | Packages/jp.keijiro.mediapipe.facelandmark/Script/FaceLandmarkDetector.cs:114-115 | the buffer afterwards holds what the dispatch writes over its earlier contents |
| `Device.ComputeBuffer.GetData` | Packages/jp.keijiro.mediapipe.facelandmark/Script/FaceLandmarkDetector.cs:131 | the requested range of records is copied into the host array and the rest of the array is left as it was; the buffer counts the call as one readback |
| `Device.ComputeBuffer.Dispose` | Packages/jp.keijiro.mediapipe.facelandmark/Script/FaceLandmarkDetector.cs:85 | the buffer records exactly one more release |
| `Readback.AfterProcess` | Packages/jp.keijiro.mediapipe.facelandmark/Script/FaceLandmarkDetector.cs:110-119 | after a frame the device buffer holds exactly that frame's records and the cache is stale, whatever it was before; the host copy and the readback count are not touched |
| `Readback.AfterRead` | Packages/jp.keijiro.mediapipe.facelandmark/Script/FaceLandmarkDetector.cs:129-134 | a fresh cache is returned unchanged, with no readback; a stale one is filled from the device buffer for exactly one readback and then marked fresh; from a coherent state the read always returns the device contents and leaves the state coherent |
| `Readback.RunTracksLastFrame` | Packages/jp.keijiro.mediapipe.facelandmark/Script/FaceLandmarkDetector.cs:110-119 | after any sequence of calls the cache is still coherent, and the device buffer holds the frame of the latest `ProcessImage` |
| `Readback.NoStaleFrame` | Packages/jp.keijiro.mediapipe.facelandmark/Script/FaceLandmarkDetector.cs:110-134 | after any sequence of calls, a read returns the records of the most recent `ProcessImage`, never those of an earlier frame |
| `Readback.LatestFrameWins` | Packages/jp.keijiro.mediapipe.facelandmark/Script/FaceLandmarkDetector.cs:110-134 | two frames processed with no read between them: the next read returns the second frame |
| `Readback.StaleUntilRead` | Packages/jp.keijiro.mediapipe.facelandmark/Script/FaceLandmarkDetector.cs:119 | once a frame is processed, the cache reports stale through any further `ProcessImage` calls, and the next read pays one readback |
| `Readback.ReadIdempotent` | Packages/jp.keijiro.mediapipe.facelandmark/Script/FaceLandmarkDetector.cs:19-20 | two reads in a row return identical records and leave the same state, and together cost one readback from a stale cache and none from a fresh one |
| `Readback.ReadbacksBounded` | Packages/jp.keijiro.mediapipe.facelandmark/Script/FaceLandmarkDetector.cs:119-134 | over any sequence of calls, the readbacks are at most one per processed frame, plus one while the initial cache is stale |
| `FaceLandmark.FrameCommands` | Packages/jp.keijiro.mediapipe.facelandmark/Script/FaceLandmarkDetector.cs:101-116 | a frame submits the layout's preprocess kernel on the source image, one inference pass, then postprocess kernel 0; every dispatch tiles its target exactly |
| `FaceLandmark.FaceLandmarkDetector.constructor` | Packages/jp.keijiro.mediapipe.facelandmark/Script/FaceLandmarkDetector.cs:26-75 | allocates the worker for the resource set's model, the input tensor in the layout's shape and a 468 × 16-byte vertex buffer; the 468-slot cache starts stale and nothing is released |
| `FaceLandmark.FaceLandmarkDetector.VertexBuffer` | Packages/jp.keijiro.mediapipe.facelandmark/Script/FaceLandmarkDetector.cs:16-17 | returns the buffer allocated at construction until disposal, and null afterwards |
| `FaceLandmark.FaceLandmarkDetector.ProcessImage` | Packages/jp.keijiro.mediapipe.facelandmark/Script/FaceLandmarkDetector.cs:93-120 | makes the `AfterProcess` step: the vertex buffer receives the frame and the cache becomes stale; it appends exactly the frame's three commands to the command stream |
| `FaceLandmark.FaceLandmarkDetector.VertexArray` | Packages/jp.keijiro.mediapipe.facelandmark/Script/FaceLandmarkDetector.cs:19-20 | makes the `AfterRead` step; the result is the cache array itself, and it holds exactly the vertex buffer's current records |
| `FaceLandmark.FaceLandmarkDetector.UpdatePostReadCache` | Packages/jp.keijiro.mediapipe.facelandmark/Script/FaceLandmarkDetector.cs:129-134 | copies all 468 records of the vertex buffer into the cache, marks it fresh, returns the cache, and counts one readback |
| `FaceLandmark.FaceLandmarkDetector.Dispose` | Packages/jp.keijiro.mediapipe.facelandmark/Script/FaceLandmarkDetector.cs:77-87 | afterwards every handle is null and the worker, tensor and buffer were each released exactly once, in that order; a second call releases nothing more |
| `FaceLandmark.FaceLandmarkDetector.ReleaseWorker` | Packages/jp.keijiro.mediapipe.facelandmark/Script/FaceLandmarkDetector.cs:79-80 | a held worker is released once; a null one is not touched; the reference ends null |
| `FaceLandmark.FaceLandmarkDetector.ReleaseTensor` | Packages/jp.keijiro.mediapipe.facelandmark/Script/FaceLandmarkDetector.cs:82-83 | a held input tensor is released once; both tensor references end null |
| `FaceLandmark.FaceLandmarkDetector.ReleaseBuffer` | Packages/jp.keijiro.mediapipe.facelandmark/Script/FaceLandmarkDetector.cs:85-86 | a held vertex buffer is released once; the reference ends null |

## Left out

- The kernels' computation and inference (`IWorker.Execute`, the preprocess kernel's resampling and normalisation, the postprocess kernel's conversion) are opaque. `ProcessImage` receives the postprocess output as the `frame` parameter, and the preprocess and inference steps appear only as commands in a ghost log.
- The contents of the input tensor are not modelled. The input tensor's shape is modelled.
- The kernels' thread-group sizes (`numthreads`) are in shader files that are not part of this model. The divisors 8 and 52 used for the dispatches stand in for them.
- `CopyOutputToTempRT` (Packages/jp.keijiro.mediapipe.facelandmark/Script/Internal/Utilities.cs) is not modelled beyond the 1 × 1404 texture size it is called with, `CopyOutputToTempRT(1, VertexCount * 3)` (line 112). `RenderTexture.ReleaseTemporary` (line 116), which releases that texture, is not modelled.
- The library's own behaviour on failure is left out. `ModelLoader.Load` (line 54) may throw on a missing or malformed model asset. A missing compute shader is not noticed at construction and would fail in the first `ProcessImage` (line 103 or 113); at line 113 the preprocess dispatch and `Execute` have already been submitted and `_postRead` is left as it was. A null resource set fails at line 54. `ResourceSet` has no null members in the model, so none of these failures is represented, and device execution failures are outside this model. The constructor has no error path because the detector itself checks nothing.
- The code does no use-after-dispose checks: `ProcessImage` would dereference the null tensor storage, and a fresh-cache `VertexArray` would still succeed. The model states "not disposed" as a precondition of `ProcessImage` and `VertexArray` instead of defining an error.
- What `Tensor.Dispose` does with its attached device storage is library behaviour and is not modelled. The detector only drops the reference.
- The code checks neither the graph's input shape at construction nor a null or empty image, so neither is modelled.
- Float values of the landmarks are not modelled: the record type is a type parameter.
- Device command-stream ordering, the blocking of `GetData`, and concurrency are out of scope. The code assumes one calling thread.
- `VertexArray` is typed `IEnumerable<Vector4>` in the code. The model returns the cache array itself, so the aliasing is visible: a later refill overwrites what an earlier read returned.
- `Assets/Script/Visualizer.cs` (rendering glue) is not part of this model. `ResourceSet` is reduced to three asset identities.
