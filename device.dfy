/**
 Stand-ins for the engine and inference-library objects the detector owns.
 Only what the detector relies on is modelled: which object is which, how many
 times each is released, the shape a tensor is created with, and the records a
 structured compute buffer holds. Inference and the kernels' arithmetic are not
 modelled; a dispatch is seen only through the records it leaves in the buffer.
 */
module Device {

  /** An asset reference (a network model or a compute shader), by identity only. */
  datatype Asset = Asset(id: nat)

  /** The resource bundle handed to the detector: the network and its two kernels. */
  datatype ResourceSet = ResourceSet(model: Asset, preprocess: Asset, postprocess: Asset)

  /** A source image; any resolution is accepted, the preprocess kernel resamples it. */
  datatype Texture = Texture(width: nat, height: nat)

  /** An inference worker bound to one loaded network on the GPU. */
  class Worker {
    const model: Asset
    var disposeCalls: nat

    constructor (model: Asset)
      ensures this.model == model && disposeCalls == 0
    {
      this.model := model;
      disposeCalls := 0;
    }

    method Dispose()
      modifies this`disposeCalls
      ensures disposeCalls == old(disposeCalls) + 1
    {
      disposeCalls := disposeCalls + 1;
    }
  }

  /** Device storage behind the input tensor. */
  class TensorData {
    const shape: seq<nat>

    constructor (shape: seq<nat>)
      ensures this.shape == shape
    {
      this.shape := shape;
    }
  }

  /** The input tensor, attached to its device storage. */
  class Tensor {
    const shape: seq<nat>
    const data: TensorData
    var disposeCalls: nat

    constructor (shape: seq<nat>, data: TensorData)
      ensures this.shape == shape && this.data == data && disposeCalls == 0
    {
      this.shape := shape;
      this.data := data;
      disposeCalls := 0;
    }

    method Dispose()
      modifies this`disposeCalls
      ensures disposeCalls == old(disposeCalls) + 1
    {
      disposeCalls := disposeCalls + 1;
    }
  }

  /**
   What a one-dimensional dispatch of `threads` threads leaves in a structured
   buffer when thread i would write records[i]: every covered slot holds the
   new record, every slot past the last thread keeps its earlier value.
   */
  function DispatchWrite<V>(buffer: seq<V>, records: seq<V>, threads: nat): (r: seq<V>)
    requires |records| == |buffer|
    ensures |r| == |buffer|
    ensures threads >= |buffer| ==> r == records
    ensures forall i :: 0 <= i < |buffer| && i < threads ==> r[i] == records[i]
    ensures forall i :: threads <= i < |buffer| ==> r[i] == buffer[i]
  {
    seq(|buffer|, i requires 0 <= i < |buffer| => if i < threads then records[i] else buffer[i])
  }

  /** A structured compute buffer of `count` records of `stride` bytes each. */
  class ComputeBuffer<V> {
    const count: nat
    const stride: nat
    var contents: seq<V>
    var disposeCalls: nat
    var readCalls: nat  // blocking GetData readbacks so far

    /** `initial` is whatever the device memory holds when it is allocated. */
    constructor (count: nat, stride: nat, initial: seq<V>)
      requires |initial| == count
      ensures this.count == count && this.stride == stride
      ensures contents == initial && disposeCalls == 0 && readCalls == 0
    {
      this.count := count;
      this.stride := stride;
      contents := initial;
      disposeCalls := 0;
      readCalls := 0;
    }

    /** A compute dispatch of `threads` threads, each writing its own record. */
    method ReceiveDispatch(records: seq<V>, threads: nat)
      requires |contents| == count && |records| == count
      modifies this`contents
      ensures contents == DispatchWrite(old(contents), records, threads)
    {
      contents := DispatchWrite(contents, records, threads);
    }

    /**
     Blocking readback: copies `n` records starting at `srcStart` into `dest`
     starting at `destStart`, leaving the rest of `dest` as it was. Each call
     is one readback.
     */
    method GetData(dest: array<V>, destStart: nat, srcStart: nat, n: nat)
      requires disposeCalls == 0
      requires destStart + n <= dest.Length && srcStart + n <= |contents|
      modifies dest, this`readCalls
      ensures readCalls == old(readCalls) + 1
      ensures forall i :: destStart <= i < destStart + n ==> dest[i] == contents[srcStart + i - destStart]
      ensures forall i :: 0 <= i < dest.Length && !(destStart <= i < destStart + n) ==> dest[i] == old(dest[i])
    {
      forall i | destStart <= i < destStart + n {
        dest[i] := contents[srcStart + i - destStart];
      }
      readCalls := readCalls + 1;
    }

    method Dispose()
      modifies this`disposeCalls
      ensures disposeCalls == old(disposeCalls) + 1
    {
      disposeCalls := disposeCalls + 1;
    }
  }
}
