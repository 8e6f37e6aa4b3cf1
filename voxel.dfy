/**
 * UVoxel, the voxel asset: a size, the XY-centre flag, one static mesh per
 * palette slot, and the occupied cells, each holding the slot of its mesh.
 */
module Voxel {
  import opened Vox
  import opened Engine

  class UVoxel {
    var name: string
    var size: IntVector
    var xyCenter: bool
    var meshes: seq<StaticMesh>
    var voxels: map<IntVector, uint8>

    /** NewObject<UVoxel> with the given object name: zero size, XY-centred, no meshes, no cells. */
    constructor(name: string)
      ensures this.name == name && size == ZeroVector && xyCenter
      ensures meshes == [] && voxels == map[]
    {
      this.name := name;
      size := ZeroVector;
      xyCenter := true;
      meshes := [];
      voxels := map[];
    }

    /** Every cell names one of the meshes. */
    predicate CellsIndexMeshes()
      reads this
    {
      forall k :: k in voxels ==> (voxels[k] as int) < |meshes|
    }
  }
}
