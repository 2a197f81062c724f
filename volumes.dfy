/** The values that flow through prediction: numpy arrays, blocks of them and
    nibabel spatial images. */
module Volumes {

  /** A numpy shape: the extent of each axis. */
  type Shape = seq<int>

  /** A numpy array of floating-point voxels, in C order. The voxel values themselves
      are never inspected by the prediction module; only shapes and positions are. */
  datatype NDArray = NDArray(shape: Shape, values: seq<real>)

  /** `np.zeros_like` on one block: same shape, every voxel 0. */
  function ZerosLike(a: NDArray): (z: NDArray)
    ensures z.shape == a.shape && |z.values| == |a.values|
    ensures forall i :: 0 <= i < |z.values| ==> z.values[i] == 0.0
  {
    NDArray(a.shape, seq(|a.values|, _ => 0.0))
  }

  /** `block[..., None]`: a trailing axis of extent 1, the single input channel.
      Adding an axis of extent 1 does not move any voxel. */
  function AddChannel(a: NDArray): NDArray
  {
    NDArray(a.shape + [1], a.values)
  }

  /** A nibabel `SpatialImage`: the voxel array together with the metadata that
      places it in space. */
  datatype SpatialImage = SpatialImage(
    dataobj: NDArray,
    affine: seq<seq<real>>,
    header: map<string, string>,
    extra: map<string, string>)
}
