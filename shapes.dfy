/**
 The fixed sizes of the face landmark pipeline: the vertex count shared by the
 postprocess dispatch, the vertex buffer and the host cache; the 192x192 input
 image and the two tensor layouts it may be stored in; the thread-group counts
 of the two compute dispatches; and the size of the texture the network
 output is copied into.
 */
module Shapes {

  /** Number of face landmarks produced per frame. */
  const VertexCount: nat := 468

  /** Width and height of the network's input image. */
  const ImageSize: nat := 192

  /** sizeof(float) in bytes. */
  const FloatSize: nat := 4

  /** Byte stride of one vertex record: four floats. */
  const VertexStride: nat := FloatSize * 4

  /** Divisor used to size the preprocess dispatch on each image axis. */
  const PreGroupSize: nat := 8

  /** Divisor used to size the postprocess dispatch over the vertices. */
  const PostGroupSize: nat := 52

  /** Channels of the input image (RGB). */
  const Channels: nat := 3

  /** Floats the network outputs per vertex (x, y, z). */
  const OutputsPerVertex: nat := 3

  /**
   Thread groups a dispatch gets when its extent is divided by the group size,
   as integer division does: the groups never overrun the extent, and fewer
   than one group's worth of items is left uncovered.
   */
  function GroupCount(extent: nat, groupSize: nat): (r: nat)
    requires groupSize > 0
    ensures r * groupSize <= extent < r * groupSize + groupSize
  {
    extent / groupSize
  }

  /** Groups per image axis of the preprocess dispatch: they tile 192 exactly. */
  function PreprocessGroups(): (r: nat)
    ensures r * PreGroupSize == ImageSize
  {
    GroupCount(ImageSize, PreGroupSize)
  }

  /** Groups of the postprocess dispatch: they tile the 468 vertices exactly. */
  function PostprocessGroups(): (r: nat)
    ensures r * PostGroupSize == VertexCount
  {
    GroupCount(VertexCount, PostGroupSize)
  }

  /**
   Width and height of the temporary texture the network output is copied
   into: 1 wide and 1404 high, a single column holding three floats for
   every vertex.
   */
  function OutputTextureSize(): (r: (nat, nat))
    ensures r.0 == 1
    ensures r.0 * r.1 == OutputsPerVertex * VertexCount
  {
    (1, VertexCount * 3)
  }

  /**
   The two input tensor layouts; the library version decides which one is
   used, once for the lifetime of a detector.
   */
  datatype Layout =
    | ChannelsFirst  // Barracuda 4.0.0 or later: (1, 3, 192, 192)
    | ChannelsLast   // earlier Barracuda: (1, 192, 192, 3), NHWC

  /** Index of the preprocess kernel that matches the layout. */
  function PrePassKernel(layout: Layout): (k: nat)
    ensures k == 0 <==> layout == ChannelsLast
    ensures layout == ChannelsFirst ==> k == 1
  {
    match layout
    case ChannelsFirst => 1
    case ChannelsLast => 0
  }

  /** Number of elements of a tensor of the given shape. */
  function ElementCount(shape: seq<nat>): (r: nat)
  {
    if shape == [] then 1 else shape[0] * ElementCount(shape[1..])
  }

  /**
   Shape of the input tensor: batch one, and the same four extents in either
   order.
   */
  function InputShape(layout: Layout): (r: seq<nat>)
    ensures |r| == 4 && r[0] == 1
    ensures multiset(r) == multiset{1, Channels, ImageSize, ImageSize}
  {
    match layout
    case ChannelsFirst => [1, Channels, ImageSize, ImageSize]
    case ChannelsLast => [1, ImageSize, ImageSize, Channels]
  }

  /** Removing one extent divides it out of the element count. */
  lemma {:induction false} ElementCountRemove(shape: seq<nat>, j: nat)
    requires j < |shape|
    ensures ElementCount(shape) == shape[j] * ElementCount(shape[..j] + shape[j + 1..])
  {
    if j > 0 {
      var tail := shape[1..];
      ElementCountRemove(tail, j - 1);
      assert shape[..j] + shape[j + 1..] == [shape[0]] + (tail[..j - 1] + tail[j..]);
      var rest := ElementCount(tail[..j - 1] + tail[j..]);
      calc {
        ElementCount(shape);
        shape[0] * (tail[j - 1] * rest);
        { assert shape[0] * (tail[j - 1] * rest) == tail[j - 1] * (shape[0] * rest); }
        shape[j] * (shape[0] * rest);
      }
    } else {
      assert shape[..j] + shape[j + 1..] == shape[1..];
    }
  }

  /** Reordering the extents of a shape does not change its element count. */
  lemma {:induction false} ElementCountPermutation(a: seq<nat>, b: seq<nat>)
    requires multiset(a) == multiset(b)
    ensures ElementCount(a) == ElementCount(b)
    decreases |a|
  {
    if a != [] {
      assert a[0] in multiset(b);
      var j :| 0 <= j < |b| && b[j] == a[0];
      var b' := b[..j] + b[j + 1..];
      assert b == b[..j] + [b[j]] + b[j + 1..];
      assert a == [a[0]] + a[1..];
      assert multiset(b) == multiset(b[..j]) + multiset{b[j]} + multiset(b[j + 1..]);
      assert multiset(a) == multiset{a[0]} + multiset(a[1..]);
      assert multiset(b') == multiset(b[..j]) + multiset(b[j + 1..]);
      assert multiset(a[1..]) == multiset(a) - multiset{a[0]};
      assert multiset(b') == multiset(b) - multiset{b[j]};
      ElementCountPermutation(a[1..], b');
      ElementCountRemove(b, j);
    } else {
      assert |b| == |multiset(b)| == 0;
    }
  }

  /** In either layout the input tensor holds one 192x192 RGB image. */
  lemma InputElementCount(layout: Layout)
    ensures ElementCount(InputShape(layout)) == Channels * ImageSize * ImageSize
  {
    var shape := InputShape(layout);
    assert shape[3..][1..] == [];
    assert ElementCount(shape[3..]) == shape[3];
    assert shape[2..][1..] == shape[3..];
    assert ElementCount(shape[2..]) == shape[2] * shape[3];
    assert shape[1..][1..] == shape[2..];
    assert ElementCount(shape[1..]) == shape[1] * (shape[2] * shape[3]);
    assert ElementCount(shape) == shape[1] * (shape[2] * shape[3]);
  }

  /** Both layouts hold the same number of input elements. */
  lemma InputElementCountAgrees(l1: Layout, l2: Layout)
    ensures ElementCount(InputShape(l1)) == ElementCount(InputShape(l2))
  {
    ElementCountPermutation(InputShape(l1), InputShape(l2));
  }
}
