/**
 * FVox: a parsed MagicaVoxel file as the asset factory reads it, together
 * with the results of the FVox helpers (GetUniqueColors, GetBiggestSize,
 * CreatePaletteTexture) whose bodies are not part of this model; they enter
 * as values, constrained only by what their callers rely on.
 */
module Vox {

  /** uint8: a palette index. */
  newtype uint8 = x: int | 0 <= x < 256

  /** FIntVector. */
  datatype IntVector = IntVector(x: int, y: int, z: int)

  /** FIntVector::ZeroValue. */
  const ZeroVector := IntVector(0, 0, 0)

  /** FColor, an sRGB colour with alpha. */
  datatype FColor = FColor(r: uint8, g: uint8, b: uint8, a: uint8)

  /** EVoxMaterialType, the `_type` of a MagicaVoxel material. */
  datatype MaterialType = DIFFUSE | METAL | GLASS | EMIT

  /** FVoxMaterial; the engine's floats are taken as reals. */
  datatype VoxMaterial = VoxMaterial(
    kind: MaterialType,
    weight: real,
    roughness: real,
    metallic: real,
    specular: real,
    ior: real,
    att: real,
    emissive: real,
    emissionPower: real,
    ldr: real,
    transparency: real,
    plastic: bool)

  /** FVoxModelData: the occupied cells of one model and the palette index of each. */
  datatype ModelData = ModelData(voxels: map<IntVector, uint8>)

  /** FVox: file name, one size per model, the models, the palette and the materials. */
  datatype VoxFile = VoxFile(
    filename: string,
    sizes: seq<IntVector>,
    models: seq<ModelData>,
    palette: seq<FColor>,
    materials: seq<VoxMaterial>)

  /** What the FVox helpers return for one file. */
  datatype Helpers = Helpers(
    uniqueColors: seq<uint8>,        // GetUniqueColors(OutPalette)
    modelColors: seq<seq<uint8>>,    // GetUniqueColors(OutPalette, ModelId), one per model
    biggestSize: IntVector,          // GetBiggestSize
    paletteTextureOk: bool)          // what CreatePaletteTexture reports

  /** No colour occurs twice. */
  predicate Distinct(p: seq<uint8>)
  {
    forall i, j :: 0 <= i < j < |p| ==> p[i] != p[j]
  }

  /** Every colour the cells use is in `p`. */
  predicate Covers(p: seq<uint8>, cells: map<IntVector, uint8>)
  {
    forall k :: k in cells ==> cells[k] in p
  }

  /**
   * What the factory relies on from GetUniqueColors: distinct colours that
   * include every colour used, for the whole file and for each model.
   */
  predicate UniqueColors(vox: VoxFile, h: Helpers)
  {
    && Distinct(h.uniqueColors)
    && (forall m :: 0 <= m < |vox.models| ==> Covers(h.uniqueColors, vox.models[m].voxels))
    && |h.modelColors| == |vox.models|
    && (forall m :: 0 <= m < |vox.models| ==> Distinct(h.modelColors[m]) && Covers(h.modelColors[m], vox.models[m].voxels))
  }

  /** Every colour of `p` indexes the palette and the material list. */
  predicate Indexable(vox: VoxFile, p: seq<uint8>)
  {
    forall i :: 0 <= i < |p| ==> p[i] as int < |vox.palette| && p[i] as int < |vox.materials|
  }

  /** The palette indexes below n. */
  function Below(n: nat): (s: set<uint8>)
    requires n <= 256
    ensures forall c: uint8 :: c in s <==> (c as int) < n
    ensures |s| == n
  {
    if n == 0 then {} else Below(n - 1) + {(n - 1) as uint8}
  }

  lemma {:induction false} DistinctElements(p: seq<uint8>)
    requires Distinct(p)
    ensures |set i | 0 <= i < |p| :: p[i]| == |p|
  {
    if |p| > 0 {
      var q := p[..|p| - 1];
      DistinctElements(q);
      var sq := set i | 0 <= i < |q| :: q[i];
      var sp := set i | 0 <= i < |p| :: p[i];
      assert sp == sq + {p[|p| - 1]};
      assert p[|p| - 1] !in sq;
    }
  }

  lemma {:induction false} SubsetSize(a: set<uint8>, b: set<uint8>)
    requires a <= b
    ensures |a| <= |b|
    decreases |a|
  {
    if a != {} {
      var x :| x in a;
      SubsetSize(a - {x}, b - {x});
    }
  }

  /** A list of distinct palette indexes has at most 256 entries. */
  lemma DistinctBound(p: seq<uint8>)
    requires Distinct(p)
    ensures |p| <= 256
  {
    DistinctElements(p);
    var s := set i | 0 <= i < |p| :: p[i];
    SubsetSize(s, Below(256));
  }
}
