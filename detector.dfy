/**
 The face landmark detector: it owns an inference worker, the input tensor and
 the vertex buffer, runs one frame through preprocess, inference and
 postprocess, and mirrors the vertex buffer into a host array only when the
 host asks for it.
 */
module FaceLandmark {
  import opened Shapes
  import opened Device
  import opened Readback

  /** The GPU work one frame submits, in order. */
  datatype Command =
    | Preprocess(shader: Asset, kernel: nat, source: Texture, groupsX: nat, groupsY: nat, groupsZ: nat)
    | Execute
    | Postprocess(shader: Asset, kernel: nat, tensorWidth: nat, tensorHeight: nat,
                  groupsX: nat, groupsY: nat, groupsZ: nat)

  /**
   A command whose dispatch covers its target exactly: the preprocess groups
   tile the 192x192 input on both axes, and the postprocess groups cover the
   468 vertices, reading a texture of three floats per vertex.
   */
  predicate TilesExactly(c: Command)
  {
    match c
    case Preprocess(_, _, _, gx, gy, gz) =>
      gx * PreGroupSize == ImageSize && gy * PreGroupSize == ImageSize && gz == 1
    case Execute => true
    case Postprocess(_, _, w, h, gx, gy, gz) =>
      gx * PostGroupSize == VertexCount && gy == 1 && gz == 1 && w * h == OutputsPerVertex * VertexCount
  }

  /**
   The commands of one frame: the layout's preprocess kernel on the source
   image, one inference pass, then kernel 0 of the postprocess shader. Every
   dispatch tiles its target exactly.
   */
  function FrameCommands(layout: Layout, resources: ResourceSet, image: Texture): (r: seq<Command>)
    ensures |r| == 3 && r[1] == Execute
    ensures r[0].Preprocess? && r[0].shader == resources.preprocess && r[0].source == image
    ensures r[0].kernel == PrePassKernel(layout)
    ensures r[2].Postprocess? && r[2].shader == resources.postprocess && r[2].kernel == 0
    ensures forall i :: 0 <= i < |r| ==> TilesExactly(r[i])
  {
    var (w, h) := OutputTextureSize();
    [ Preprocess(resources.preprocess, PrePassKernel(layout), image,
                 PreprocessGroups(), PreprocessGroups(), 1),
      Execute,
      Postprocess(resources.postprocess, 0, w, h, PostprocessGroups(), 1, 1) ]
  }

  /** Which owned resource a release concerns. */
  datatype Resource = WorkerResource | TensorResource | BufferResource

  /** The release order of Dispose. */
  const ReleaseOrder: seq<Resource> := [WorkerResource, TensorResource, BufferResource]

  /**
   The detector. V is the landmark record type (four floats), left opaque.
   The ghost fields remember the objects allocated at construction, whether
   the detector has been disposed, the GPU commands submitted and the
   releases performed. The readback count is the vertex buffer's own count
   of GetData calls.
   */
  class FaceLandmarkDetector<V(0)> {
    const layout: Layout
    const resources: ResourceSet

    var worker: Worker?
    var preprocessTensor: Tensor?
    var preprocessData: TensorData?
    var postBuffer: ComputeBuffer?<V>
    var postReadCache: array<V>
    var postRead: bool

    ghost var disposed: bool
    ghost var allocatedWorker: Worker
    ghost var allocatedTensor: Tensor
    ghost var allocatedBuffer: ComputeBuffer<V>
    ghost var commands: seq<Command>
    ghost var releases: seq<Resource>
    ghost var Repr: set<object>

    /**
     The object invariant. The buffer holds VertexCount records of 16 bytes,
     the host cache has VertexCount slots and the input tensor has the layout's
     shape. Until disposal every handle is the one allocated and none has been
     released; after it every handle is null and each was released once, in
     the order worker, tensor, buffer. A fresh cache equals the buffer.
     */
    ghost predicate Valid()
      reads this, Repr
    {
      && Repr == {this, allocatedWorker, allocatedTensor, allocatedBuffer, postReadCache}
      && Sized()
      && (if disposed then Released() else Held())
      && Coherent(Cache())
    }

    /** The fixed sizes: 468 records of 16 bytes, 468 host slots, the layout's input shape. */
    ghost predicate Sized()
      reads this, allocatedBuffer
    {
      && postReadCache.Length == VertexCount
      && allocatedBuffer.count == VertexCount && allocatedBuffer.stride == VertexStride
      && |allocatedBuffer.contents| == VertexCount
      && allocatedWorker.model == resources.model
      && allocatedTensor.shape == InputShape(layout) && allocatedTensor.data.shape == InputShape(layout)
    }

    /** Before disposal: every handle is the one allocated, and none is released. */
    ghost predicate Held()
      reads this, allocatedWorker, allocatedTensor, allocatedBuffer
    {
      && worker == allocatedWorker && preprocessTensor == allocatedTensor
      && preprocessData == allocatedTensor.data && postBuffer == allocatedBuffer
      && allocatedWorker.disposeCalls == 0 && allocatedTensor.disposeCalls == 0
      && allocatedBuffer.disposeCalls == 0 && releases == []
    }

    /** After disposal: every handle is null, and each was released once, in order. */
    ghost predicate Released()
      reads this, allocatedWorker, allocatedTensor, allocatedBuffer
    {
      && worker == null && preprocessTensor == null
      && preprocessData == null && postBuffer == null
      && allocatedWorker.disposeCalls == 1 && allocatedTensor.disposeCalls == 1
      && allocatedBuffer.disposeCalls == 1 && releases == ReleaseOrder
    }

    /** The readback cache's abstract state. */
    ghost function Cache(): (r: CacheState<V>)
      reads this, allocatedBuffer, postReadCache
    {
      CacheState(allocatedBuffer.contents, postReadCache[..], postRead, allocatedBuffer.readCalls)
    }

    /**
     Allocation: a GPU worker for the resource set's network, the input tensor
     in the layout's shape attached to its device storage, and a vertex buffer
     of VertexCount records of four floats. The cache starts stale, so the
     first read copies. `deviceMemory` is what the new buffer holds.
     */
    constructor (resources: ResourceSet, layout: Layout, deviceMemory: seq<V>)
      requires |deviceMemory| == VertexCount
      ensures Valid() && fresh(Repr)
      ensures this.resources == resources && this.layout == layout
      ensures !disposed && !postRead && allocatedBuffer.readCalls == 0 && commands == []
      ensures allocatedBuffer.contents == deviceMemory
      ensures postReadCache.Length == VertexCount
      ensures allocatedBuffer.count == VertexCount && allocatedBuffer.stride == VertexStride
      ensures allocatedTensor.shape == InputShape(layout) && allocatedWorker.model == resources.model
      ensures releases == [] && allocatedWorker.disposeCalls == 0
      ensures allocatedTensor.disposeCalls == 0 && allocatedBuffer.disposeCalls == 0
    {
      var cache := new V[VertexCount];
      var w := new Worker(resources.model);
      var shape := InputShape(layout);
      var data := new TensorData(shape);
      var tensor := new Tensor(shape, data);
      var buffer := new ComputeBuffer(VertexCount, FloatSize * 4, deviceMemory);
      this.resources := resources;
      this.layout := layout;
      worker := w;
      preprocessData, preprocessTensor := data, tensor;
      postBuffer := buffer;
      postReadCache := cache;
      postRead := false;
      disposed := false;
      allocatedWorker, allocatedTensor, allocatedBuffer := w, tensor, buffer;
      commands := [];
      releases := [];
      Repr := {this, w, tensor, buffer, cache};
    }

    /** The device vertex buffer: the one allocated at construction, until disposal. */
    function VertexBuffer(): (b: ComputeBuffer?<V>)
      reads this, Repr
      requires Valid()
      ensures b == (if disposed then null else allocatedBuffer)
    {
      postBuffer
    }

    /**
     Runs one frame. The postprocess kernel writes `frame` (the records it
     computes from the network output for this image) into the vertex buffer;
     then the cache is marked stale, unconditionally.
     */
    method ProcessImage(image: Texture, frame: seq<V>)
      requires Valid() && !disposed && |frame| == VertexCount
      modifies this`postRead, this`commands, allocatedBuffer`contents
      ensures Valid()
      ensures Cache() == AfterProcess(old(Cache()), frame)
      ensures !postRead && allocatedBuffer.contents == frame
      ensures commands == old(commands) + FrameCommands(layout, resources, image)
    {
      // Preprocessing
      var pre := resources.preprocess;
      var prePass := PrePassKernel(layout);
      commands := commands + [Preprocess(pre, prePass, image, ImageSize / 8, ImageSize / 8, 1)];

      // Inference
      commands := commands + [Execute];

      // Postprocessing
      var post := resources.postprocess;
      var (w, h) := (1, VertexCount * 3);
      postBuffer.ReceiveDispatch(frame, (VertexCount / 52) * PostGroupSize);
      commands := commands + [Postprocess(post, 0, w, h, VertexCount / 52, 1, 1)];

      // Read cache invalidation
      postRead := false;
    }

    /**
     The landmark records on the host. A fresh cache is returned without
     touching the device; a stale one is refilled from the vertex buffer
     first. Either way the result is the cache array itself and holds exactly
     what the vertex buffer holds.
     */
    method VertexArray() returns (r: array<V>)
      requires Valid() && !disposed
      modifies this`postRead, allocatedBuffer`readCalls, postReadCache
      ensures Valid() && r == postReadCache
      ensures (Cache(), r[..]) == AfterRead(old(Cache()))
      ensures postRead && r[..] == allocatedBuffer.contents
    {
      if postRead {
        r := postReadCache;
      } else {
        r := UpdatePostReadCache();
      }
    }

    /** Copies all VertexCount records of the vertex buffer into the cache and marks it fresh. */
    method UpdatePostReadCache() returns (r: array<V>)
      requires Valid() && !disposed
      modifies this`postRead, allocatedBuffer`readCalls, postReadCache
      ensures Valid() && r == postReadCache
      ensures postRead && r[..] == allocatedBuffer.contents
      ensures allocatedBuffer.readCalls == old(allocatedBuffer.readCalls) + 1
    {
      postBuffer.GetData(postReadCache, 0, 0, VertexCount);
      assert postReadCache[..] == allocatedBuffer.contents;
      postRead := true;
      r := postReadCache;
    }

    /**
     Releases the worker, then the tensor, then the buffer, each only if it is
     still held, and drops the references. A second call finds every handle
     null and changes nothing.
     */
    method Dispose()
      requires Valid()
      modifies this`worker, this`preprocessTensor, this`preprocessData, this`postBuffer,
               this`disposed, this`releases,
               allocatedWorker`disposeCalls, allocatedTensor`disposeCalls, allocatedBuffer`disposeCalls
      ensures Valid() && disposed
      ensures worker == null && preprocessTensor == null && preprocessData == null && postBuffer == null
      ensures releases == ReleaseOrder
      ensures allocatedWorker.disposeCalls == 1 && allocatedTensor.disposeCalls == 1
      ensures allocatedBuffer.disposeCalls == 1
    {
      ghost var wasDisposed := disposed;
      ReleaseWorker();
      ReleaseTensor();
      ReleaseBuffer();
      assert !wasDisposed ==> releases == [] + [WorkerResource] + [TensorResource] + [BufferResource];
      disposed := true;
    }

    /** Releases the worker if it is still held, then drops the reference. */
    method ReleaseWorker()
      requires worker == null || worker == allocatedWorker
      modifies this`worker, this`releases, allocatedWorker`disposeCalls
      ensures worker == null
      ensures old(worker) != null ==> releases == old(releases) + [WorkerResource]
      ensures old(worker) != null ==> allocatedWorker.disposeCalls == old(allocatedWorker.disposeCalls) + 1
      ensures old(worker) == null ==> releases == old(releases)
      ensures old(worker) == null ==> allocatedWorker.disposeCalls == old(allocatedWorker.disposeCalls)
    {
      if worker != null {
        worker.Dispose();
        releases := releases + [WorkerResource];
      }
      worker := null;
    }

    /** Releases the input tensor if it is still held, then drops both tensor references. */
    method ReleaseTensor()
      requires preprocessTensor == null || preprocessTensor == allocatedTensor
      modifies this`preprocessTensor, this`preprocessData, this`releases, allocatedTensor`disposeCalls
      ensures preprocessTensor == null && preprocessData == null
      ensures old(preprocessTensor) != null ==> releases == old(releases) + [TensorResource]
      ensures old(preprocessTensor) != null ==> allocatedTensor.disposeCalls == old(allocatedTensor.disposeCalls) + 1
      ensures old(preprocessTensor) == null ==> releases == old(releases)
      ensures old(preprocessTensor) == null ==> allocatedTensor.disposeCalls == old(allocatedTensor.disposeCalls)
    {
      if preprocessTensor != null {
        preprocessTensor.Dispose();
        releases := releases + [TensorResource];
      }
      preprocessTensor, preprocessData := null, null;
    }

    /** Releases the vertex buffer if it is still held, then drops the reference. */
    method ReleaseBuffer()
      requires postBuffer == null || postBuffer == allocatedBuffer
      modifies this`postBuffer, this`releases, allocatedBuffer`disposeCalls
      ensures postBuffer == null
      ensures old(postBuffer) != null ==> releases == old(releases) + [BufferResource]
      ensures old(postBuffer) != null ==> allocatedBuffer.disposeCalls == old(allocatedBuffer.disposeCalls) + 1
      ensures old(postBuffer) == null ==> releases == old(releases)
      ensures old(postBuffer) == null ==> allocatedBuffer.disposeCalls == old(allocatedBuffer.disposeCalls)
    {
      if postBuffer != null {
        postBuffer.Dispose();
        releases := releases + [BufferResource];
      }
      postBuffer := null;
    }
  }
}
