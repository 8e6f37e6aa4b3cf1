/**
 * UVoxelFactory: how an imported .vox file becomes assets. Static meshes
 * (one per model, or one for the whole file), or voxel assets whose cells
 * point at one single-cell mesh per palette colour; and the materials: one
 * shared material, or a base material with one instance per colour whose
 * parameter overrides follow the colour's material type.
 */
module VoxelFactory {
  import opened Wrappers
  import opened FString
  import opened NameFormater
  import opened Vox
  import opened Engine
  import opened Voxel

  // ---------------------------------------------------------------------------
  // Import options and the inputs of one import
  // ---------------------------------------------------------------------------

  /** EVoxImportType. */
  datatype ImportType = StaticMeshImport | VoxelImport

  /** EVoxResourcesSaveLocation: generated resources next to the asset, or in "<name>_Resources". */
  datatype ResourcesSaveLocation = SameFolder | SubFolder

  /** The UVoxImportOption settings the asset-building code reads. */
  datatype ImportOption = ImportOption(
    importType: ImportType,
    importXYCenter: bool,
    importMaterial: bool,
    oneMaterial: bool,
    separateModels: bool,
    paletteToTexture: bool,
    resourcesSaveLocation: ResourcesSaveLocation,
    namingConvention: NamingConvention)

  /**
   * FNameFormater::GetFormatedName as the factory calls it: the kind of
   * asset, the arguments and the naming convention give the asset's name.
   */
  type Naming = (FormaterObjectType, NameFormatArgs, NamingConvention) -> string

  /** The naming the editor provides: the patterns of the naming table filled in. */
  function NamingFor(table: Option<NamingTable>): (naming: Naming)
    ensures forall t, args, c :: naming(t, args, c) == FormattedName(table, t, args, c)
  {
    (t, args, c) => FormattedName(table, t, args, c)
  }

  /**
   * What one import hands to the asset-building members: the naming in
   * force, the package path of the asset's parent, the asset's plain name,
   * the parsed file and the FVox helper results. The members hold for every
   * naming; NamingFor is the one the editor provides.
   */
  datatype Request = Request(
    naming: Naming,
    parentPath: string,
    baseName: string,
    vox: VoxFile,
    helpers: Helpers)

  /**
   * A folder and a name joined by one `/`; FString's `/` operator, except
   * that it does not drop the separator at an empty or slash-ended side.
   */
  function JoinPath(a: string, b: string): string
  {
    a + "/" + b
  }

  /** Where the materials, textures and single-cell meshes are saved. */
  function ResourcesFolder(opt: ImportOption, rq: Request): string
  {
    if opt.resourcesSaveLocation == SubFolder then JoinPath(rq.parentPath, rq.baseName + "_Resources")
    else rq.parentPath
  }

  /** The ModelId argument of a name: the model's index when models are kept separate, unset otherwise. */
  function ModelArg(opt: ImportOption, modelId: nat): int
  {
    if opt.separateModels then modelId else -1
  }

  /** The name of an asset of kind `t`. */
  function AssetName(opt: ImportOption, rq: Request, t: FormaterObjectType, args: NameFormatArgs): string
  {
    rq.naming(t, args, opt.namingConvention)
  }

  /** The arguments a material instance is named with: the colour, no model id, no description. */
  function InstanceArgs(rq: Request, color: uint8): NameFormatArgs
  {
    NameFormatArgs(rq.baseName, color as int, -1, "")
  }

  /** The package path of the material instance for a colour. */
  function InstancePath(opt: ImportOption, rq: Request, color: uint8): string
  {
    JoinPath(ResourcesFolder(opt, rq), AssetName(opt, rq, MaterialInstance, InstanceArgs(rq, color)))
  }

  function InstancePaths(opt: ImportOption, rq: Request, colors: seq<uint8>): (r: seq<string>)
    ensures |r| == |colors|
    ensures forall j :: 0 <= j < |colors| ==> r[j] == InstancePath(opt, rq, colors[j])
  {
    seq(|colors|, j requires 0 <= j < |colors| => InstancePath(opt, rq, colors[j]))
  }

  // ---------------------------------------------------------------------------
  // Cell remapping
  // ---------------------------------------------------------------------------

  /** TArray::IndexOfByKey: the first position of `c` in `p`, or INDEX_NONE (-1). */
  function IndexOf(p: seq<uint8>, c: uint8): (r: int)
    ensures r == -1 <==> c !in p
    ensures r != -1 ==> 0 <= r < |p| && p[r] == c && forall j :: 0 <= j < r ==> p[j] != c
    decreases |p|
  {
    if |p| == 0 then -1
    else if p[0] == c then 0
    else
      var r := IndexOf(p[1..], c);
      if r == -1 then -1 else r + 1
  }

  /** The implicit int32 to uint8 conversion of the stored slot: the low eight bits. */
  function ToUint8(i: int): (b: uint8)
    ensures 0 <= i < 256 ==> b as int == i
  {
    (i % 256) as uint8
  }

  /** The cells of a voxel asset: each cell holds the position of its colour in the palette list. */
  function Remap(cells: map<IntVector, uint8>, p: seq<uint8>): map<IntVector, uint8>
  {
    map k | k in cells :: ToUint8(IndexOf(p, cells[k]))
  }

  /**
   * With distinct colours that cover the cells, every cell holds a valid
   * palette slot, and that slot's colour is the cell's own colour.
   */
  lemma RemapSlots(cells: map<IntVector, uint8>, p: seq<uint8>)
    requires Distinct(p) && Covers(p, cells)
    ensures Remap(cells, p).Keys == cells.Keys
    ensures forall k :: k in cells ==> (Remap(cells, p)[k] as int) < |p| && p[Remap(cells, p)[k]] == cells[k]
  {
    DistinctBound(p);
  }

  /** Cells added model after model: a later model's cell overwrites an earlier one at the same place (TMap::Add). */
  function MergedCells(models: seq<ModelData>): map<IntVector, uint8>
    decreases |models|
  {
    if |models| == 0 then map[]
    else MergedCells(models[..|models| - 1]) + models[|models| - 1].voxels
  }

  /** A place is occupied in the merged cells exactly when some model occupies it. */
  lemma {:induction false} MergedDomain(models: seq<ModelData>, k: IntVector)
    ensures k in MergedCells(models) <==> exists i :: 0 <= i < |models| && k in models[i].voxels
    decreases |models|
  {
    if |models| > 0 {
      var init := models[..|models| - 1];
      MergedDomain(init, k);
      assert forall i :: 0 <= i < |init| ==> init[i] == models[i];
    }
  }

  /** The merged cell holds the colour of the last model that occupies the place. */
  lemma {:induction false} MergedLastWins(models: seq<ModelData>, k: IntVector, i: nat)
    requires i < |models| && k in models[i].voxels
    requires forall j :: i < j < |models| ==> k !in models[j].voxels
    ensures k in MergedCells(models) && MergedCells(models)[k] == models[i].voxels[k]
    decreases |models|
  {
    var init := models[..|models| - 1];
    if i < |models| - 1 {
      assert forall j :: i < j < |init| ==> init[j] == models[j];
      MergedLastWins(init, k, i);
    }
  }

  /** Colours that cover every model cover the merged cells. */
  lemma {:induction false} MergedCovered(models: seq<ModelData>, p: seq<uint8>)
    requires forall m :: 0 <= m < |models| ==> Covers(p, models[m].voxels)
    ensures Covers(p, MergedCells(models))
    decreases |models|
  {
    if |models| > 0 {
      MergedCovered(models[..|models| - 1], p);
    }
  }

  /** Remapping the cells of both maps is remapping each. */
  lemma RemapUnion(a: map<IntVector, uint8>, b: map<IntVector, uint8>, p: seq<uint8>)
    ensures Remap(a + b, p) == Remap(a, p) + Remap(b, p)
  {
  }

  /** One more cell added to the remapped cells. */
  lemma AddOneCell(base: map<IntVector, uint8>, cells: map<IntVector, uint8>, r: set<IntVector>, k: IntVector, p: seq<uint8>)
    requires k in r && r <= cells.Keys
    ensures (base + Remap(cells - r, p))[k := ToUint8(IndexOf(p, cells[k]))] == base + Remap(cells - (r - {k}), p)
  {
    var lhs := (base + Remap(cells - r, p))[k := ToUint8(IndexOf(p, cells[k]))];
    var rhs := base + Remap(cells - (r - {k}), p);
    assert lhs.Keys == rhs.Keys;
    forall x | x in lhs.Keys
      ensures lhs[x] == rhs[x]
    {
      if x == k {
        assert k in (cells - (r - {k})).Keys;
      }
    }
  }

  lemma MergedStep(models: seq<ModelData>, m: nat)
    requires m < |models|
    ensures MergedCells(models[..m + 1]) == MergedCells(models[..m]) + models[m].voxels
  {
    assert models[..m + 1][..m] == models[..m];
  }

  /** The cells a voxel asset is made from: one model's, or all models' merged. */
  function CellsOf(opt: ImportOption, vox: VoxFile, modelId: nat): map<IntVector, uint8>
    requires opt.separateModels ==> modelId < |vox.models|
  {
    if opt.separateModels then vox.models[modelId].voxels else MergedCells(vox.models)
  }

  // ---------------------------------------------------------------------------
  // Material-instance parameters
  // ---------------------------------------------------------------------------

  /**
   * Whether the base colour is not sampled from a palette texture: the
   * option is off, or it is on but the texture could not be made.
   */
  function TextureNotSampled(opt: ImportOption, h: Helpers): bool
  {
    !opt.paletteToTexture || !h.paletteTextureOk
  }

  /** The overrides GenerateMaterials writes on the instance for one colour, in the order it writes them. */
  function InstanceParameters(m: VoxMaterial, c: FColor, textureNotSampled: bool): seq<Param>
  {
    (if textureNotSampled then [VectorParam("Color", c)] else [])
    + [ScalarParam("Roughness", m.roughness)]
    + match m.kind
      case GLASS => [ScalarParam("Opacity", 1.0 - m.transparency)]
      case METAL => [ScalarParam("Metallic", m.metallic)]
      case EMIT =>
        (if textureNotSampled then [VectorParam("EmissionColor", c)] else [])
        + [ScalarParam("EmissionPower", m.emissionPower), ScalarParam("Emission", m.emissive)]
      case DIFFUSE => []
  }

  /** The decision table, one parameter at a time. */
  predicate Writes(n: string, kind: MaterialType, textureNotSampled: bool)
  {
    || n == "Roughness"
    || (n == "Color" && textureNotSampled)
    || (n == "Opacity" && kind == GLASS)
    || (n == "Metallic" && kind == METAL)
    || ((n == "EmissionPower" || n == "Emission") && kind == EMIT)
    || (n == "EmissionColor" && kind == EMIT && textureNotSampled)
  }

  function ParamName(p: Param): string
  {
    match p
    case ScalarParam(n, _) => n
    case VectorParam(n, _) => n
  }

  /** The value a list of overrides gives a scalar parameter, the last write winning. */
  function ScalarValue(ps: seq<Param>, n: string): Option<real>
    decreases |ps|
  {
    if |ps| == 0 then None
    else
      var last := ps[|ps| - 1];
      if last.ScalarParam? && last.name == n then Some(last.value) else ScalarValue(ps[..|ps| - 1], n)
  }

  /** The value a list of overrides gives a vector parameter, the last write winning. */
  function VectorValue(ps: seq<Param>, n: string): Option<FColor>
    decreases |ps|
  {
    if |ps| == 0 then None
    else
      var last := ps[|ps| - 1];
      if last.VectorParam? && last.name == n then Some(last.color) else VectorValue(ps[..|ps| - 1], n)
  }

  /** A parameter is written exactly when the decision table says so. */
  lemma ParameterTable(m: VoxMaterial, c: FColor, tns: bool, n: string)
    ensures (exists i :: 0 <= i < |InstanceParameters(m, c, tns)| && ParamName(InstanceParameters(m, c, tns)[i]) == n)
      <==> Writes(n, m.kind, tns)
  {
    var ps := InstanceParameters(m, c, tns);
    var head := if tns then [VectorParam("Color", c)] else [];
    assert ps[|head|] == ScalarParam("Roughness", m.roughness);
    if Writes(n, m.kind, tns) {
      if n == "Roughness" {
        assert ParamName(ps[|head|]) == n;
      } else if n == "Color" && tns {
        assert ParamName(ps[0]) == n;
      } else {
        match m.kind
        case GLASS => assert ParamName(ps[|head| + 1]) == n;
        case METAL => assert ParamName(ps[|head| + 1]) == n;
        case EMIT =>
          var e := if tns then [VectorParam("EmissionColor", c)] else [];
          if n == "EmissionColor" {
            assert ParamName(ps[|head| + 1]) == n;
          } else if n == "EmissionPower" {
            assert ParamName(ps[|head| + 1 + |e|]) == n;
          } else {
            assert ParamName(ps[|head| + 2 + |e|]) == n;
          }
        case DIFFUSE =>
      }
    }
  }

  /** No parameter is written twice, so the order of the writes does not matter. */
  lemma ParametersOnce(m: VoxMaterial, c: FColor, tns: bool)
    ensures forall i, j :: 0 <= i < j < |InstanceParameters(m, c, tns)| ==>
      ParamName(InstanceParameters(m, c, tns)[i]) != ParamName(InstanceParameters(m, c, tns)[j])
  {
  }

  lemma {:induction false} ScalarValueAt(ps: seq<Param>, i: nat, n: string)
    requires i < |ps| && ps[i].ScalarParam? && ps[i].name == n
    requires forall j :: i < j < |ps| ==> ParamName(ps[j]) != n
    ensures ScalarValue(ps, n) == Some(ps[i].value)
    decreases |ps|
  {
    if i < |ps| - 1 {
      ScalarValueAt(ps[..|ps| - 1], i, n);
    }
  }

  lemma {:induction false} VectorValueAt(ps: seq<Param>, i: nat, n: string)
    requires i < |ps| && ps[i].VectorParam? && ps[i].name == n
    requires forall j :: i < j < |ps| ==> ParamName(ps[j]) != n
    ensures VectorValue(ps, n) == Some(ps[i].color)
    decreases |ps|
  {
    if i < |ps| - 1 {
      VectorValueAt(ps[..|ps| - 1], i, n);
    }
  }

  /** The values: the material's roughness, metallic, emission and 1 - transparency as opacity, and the palette colour. */
  lemma ParameterValues(m: VoxMaterial, c: FColor, tns: bool)
    ensures ScalarValue(InstanceParameters(m, c, tns), "Roughness") == Some(m.roughness)
    ensures m.kind == GLASS ==> ScalarValue(InstanceParameters(m, c, tns), "Opacity") == Some(1.0 - m.transparency)
    ensures m.kind == METAL ==> ScalarValue(InstanceParameters(m, c, tns), "Metallic") == Some(m.metallic)
    ensures m.kind == EMIT ==> ScalarValue(InstanceParameters(m, c, tns), "EmissionPower") == Some(m.emissionPower)
    ensures m.kind == EMIT ==> ScalarValue(InstanceParameters(m, c, tns), "Emission") == Some(m.emissive)
    ensures tns ==> VectorValue(InstanceParameters(m, c, tns), "Color") == Some(c)
    ensures m.kind == EMIT && tns ==> VectorValue(InstanceParameters(m, c, tns), "EmissionColor") == Some(c)
  {
    var ps := InstanceParameters(m, c, tns);
    var head := if tns then [VectorParam("Color", c)] else [];
    ParametersOnce(m, c, tns);
    ScalarValueAt(ps, |head|, "Roughness");
    if tns {
      VectorValueAt(ps, 0, "Color");
    }
    KindValues(m, c, tns);
  }

  /** The values of the parameters only some material types write. */
  lemma KindValues(m: VoxMaterial, c: FColor, tns: bool)
    ensures m.kind == GLASS ==> ScalarValue(InstanceParameters(m, c, tns), "Opacity") == Some(1.0 - m.transparency)
    ensures m.kind == METAL ==> ScalarValue(InstanceParameters(m, c, tns), "Metallic") == Some(m.metallic)
    ensures m.kind == EMIT ==> ScalarValue(InstanceParameters(m, c, tns), "EmissionPower") == Some(m.emissionPower)
    ensures m.kind == EMIT ==> ScalarValue(InstanceParameters(m, c, tns), "Emission") == Some(m.emissive)
    ensures m.kind == EMIT && tns ==> VectorValue(InstanceParameters(m, c, tns), "EmissionColor") == Some(c)
  {
    var ps := InstanceParameters(m, c, tns);
    var head := if tns then [VectorParam("Color", c)] else [];
    ParametersOnce(m, c, tns);
    match m.kind
    case GLASS => ScalarValueAt(ps, |head| + 1, "Opacity");
    case METAL => ScalarValueAt(ps, |head| + 1, "Metallic");
    case EMIT =>
      var e := if tns then [VectorParam("EmissionColor", c)] else [];
      if tns {
        VectorValueAt(ps, |head| + 1, "EmissionColor");
      }
      ScalarValueAt(ps, |head| + 1 + |e|, "EmissionPower");
      ScalarValueAt(ps, |head| + 2 + |e|, "Emission");
    case DIFFUSE =>
  }

  // ---------------------------------------------------------------------------
  // What each created asset holds
  // ---------------------------------------------------------------------------

  /** The material CreateMaterial makes: base colour from the palette texture when that could be made. */
  function OneMaterial(opt: ImportOption, rq: Request): MaterialAsset
  {
    var textureName := AssetName(opt, rq, Texture, NameFormatArgs(rq.baseName, -1, -1, "Palette"));
    MaterialAsset(AssetName(opt, rq, Material, DefaultArgs(rq.baseName)),
                  if rq.helpers.paletteTextureOk then Some(textureName) else None)
  }

  /** The base material GenerateMaterials makes: it samples the texture only when asked to and when it could be made. */
  function BaseMaterial(opt: ImportOption, rq: Request): MaterialAsset
  {
    var textureName := AssetName(opt, rq, Texture, NameFormatArgs(rq.baseName, -1, -1, "Palette"));
    MaterialAsset(AssetName(opt, rq, Material, DefaultArgs(rq.baseName)),
                  if opt.paletteToTexture && rq.helpers.paletteTextureOk then Some(textureName) else None)
  }

  /**
   * The one shared material and the base material of the instances carry the
   * same name; the base material samples the palette texture exactly when
   * the instances are not given colour overrides, and then the shared
   * material samples that same texture, which it does whenever the texture
   * could be made.
   */
  lemma MaterialsAgree(opt: ImportOption, rq: Request)
    ensures OneMaterial(opt, rq).name == BaseMaterial(opt, rq).name
    ensures BaseMaterial(opt, rq).paletteTexture.None? <==> TextureNotSampled(opt, rq.helpers)
    ensures BaseMaterial(opt, rq).paletteTexture.Some? ==> OneMaterial(opt, rq).paletteTexture == BaseMaterial(opt, rq).paletteTexture
    ensures OneMaterial(opt, rq).paletteTexture.Some? <==> rq.helpers.paletteTextureOk
  {
  }

  /** The instance GenerateMaterials makes for one colour. */
  predicate InstanceMade(mi: MaterialInstance, opt: ImportOption, rq: Request, parent: string, color: uint8)
    reads mi
  {
    && color as int < |rq.vox.palette| && color as int < |rq.vox.materials|
    && mi.name == AssetName(opt, rq, MaterialInstance, InstanceArgs(rq, color))
    && mi.parent == parent
    && mi.params == InstanceParameters(rq.vox.materials[color], rq.vox.palette[color], TextureNotSampled(opt, rq.helpers))
    && mi.translucent == (rq.vox.materials[color].kind == GLASS)
  }

  /**
   * What GenerateMaterials leaves behind: one distinct instance per unique
   * colour, made for that colour under the base material, each saved at its
   * colour's path in the resources folder, in palette order.
   */
  ghost predicate InstancesSaved(opt: ImportOption, rq: Request, m0: map<string, MaterialInstance>,
                                 m: map<string, MaterialInstance>, instances: seq<MaterialInstance>)
    reads instances
  {
    && |instances| == |rq.helpers.uniqueColors|
    && (forall i, j :: 0 <= i < j < |instances| ==> instances[i] != instances[j])
    && (forall j :: 0 <= j < |instances| ==>
          InstanceMade(instances[j], opt, rq, BaseMaterial(opt, rq).name, rq.helpers.uniqueColors[j]))
    && m == Registered(m0, InstancePaths(opt, rq, rq.helpers.uniqueColors), instances)
  }

  /**
   * The first |instances| iterations of the instance loop over `colors` are
   * done: one distinct instance per colour, made for it under `parent`, each
   * saved at its colour's path.
   */
  ghost predicate SavedSoFar(opt: ImportOption, rq: Request, m0: map<string, MaterialInstance>, m: map<string, MaterialInstance>,
                             parent: string, colors: seq<uint8>, instances: seq<MaterialInstance>)
    reads instances
  {
    && |instances| <= |colors|
    && (forall i, j :: 0 <= i < j < |instances| ==> instances[i] != instances[j])
    && (forall i :: 0 <= i < |instances| ==> InstanceMade(instances[i], opt, rq, parent, colors[i]))
    && m == Registered(m0, InstancePaths(opt, rq, colors[..|instances|]), instances)
  }

  /** One more instance, distinct from the others, made for the next colour and saved at its path. */
  lemma SavedSnoc(opt: ImportOption, rq: Request, m0: map<string, MaterialInstance>, m: map<string, MaterialInstance>,
                  parent: string, colors: seq<uint8>, instances: seq<MaterialInstance>, mi: MaterialInstance)
    requires SavedSoFar(opt, rq, m0, m, parent, colors, instances) && |instances| < |colors| && mi !in instances
    requires InstanceMade(mi, opt, rq, parent, colors[|instances|])
    ensures SavedSoFar(opt, rq, m0, m[InstancePath(opt, rq, colors[|instances|]) := mi], parent, colors, instances + [mi])
  {
    var n := |instances|;
    var after := instances + [mi];
    forall i, j | 0 <= i < j < |after|
      ensures after[i] != after[j]
    {
      if j == n {
        assert after[i] == instances[i];
      }
    }
    forall i | 0 <= i < |after|
      ensures InstanceMade(after[i], opt, rq, parent, colors[i])
    {
      if i < n {
        assert after[i] == instances[i];
      }
    }
    RegisteredSnoc(m0, InstancePaths(opt, rq, colors[..n]), instances, InstancePath(opt, rq, colors[n]), mi);
    InstancePathsSnoc(opt, rq, colors, n);
  }

  /** The paths of one more colour are the paths so far and the next colour's path. */
  lemma InstancePathsSnoc(opt: ImportOption, rq: Request, colors: seq<uint8>, n: nat)
    requires n < |colors|
    ensures InstancePaths(opt, rq, colors[..n]) + [InstancePath(opt, rq, colors[n])] == InstancePaths(opt, rq, colors[..n + 1])
  {
    assert colors[..n + 1] == colors[..n] + [colors[n]];
  }

  /** Once every colour is done, SavedSoFar says what the whole loop promises. */
  lemma SavedAll(opt: ImportOption, rq: Request, m0: map<string, MaterialInstance>, m: map<string, MaterialInstance>,
                 parent: string, colors: seq<uint8>, instances: seq<MaterialInstance>)
    requires SavedSoFar(opt, rq, m0, m, parent, colors, instances) && |instances| == |colors|
    ensures forall i, j :: 0 <= i < j < |instances| ==> instances[i] != instances[j]
    ensures forall j :: 0 <= j < |instances| ==> InstanceMade(instances[j], opt, rq, parent, colors[j])
    ensures m == Registered(m0, InstancePaths(opt, rq, colors), instances)
  {
    assert colors[..|colors|] == colors;
  }

  /** The registry after saving `insts` at `paths` in order; a later save at the same path wins. */
  function Registered(m: map<string, MaterialInstance>, paths: seq<string>, insts: seq<MaterialInstance>): map<string, MaterialInstance>
    requires |paths| == |insts|
    decreases |paths|
  {
    if |paths| == 0 then m
    else Registered(m, paths[..|paths| - 1], insts[..|insts| - 1])[paths[|paths| - 1] := insts[|insts| - 1]]
  }

  /** One more save. */
  lemma RegisteredSnoc(m: map<string, MaterialInstance>, paths: seq<string>, insts: seq<MaterialInstance>, p: string, mi: MaterialInstance)
    requires |paths| == |insts|
    ensures Registered(m, paths + [p], insts + [mi]) == Registered(m, paths, insts)[p := mi]
  {
    assert (paths + [p])[..|paths|] == paths;
    assert (insts + [mi])[..|insts|] == insts;
  }

  /** Every saved path can be loaded afterwards. */
  lemma {:induction false} RegisteredFound(m: map<string, MaterialInstance>, paths: seq<string>, insts: seq<MaterialInstance>, j: nat)
    requires |paths| == |insts| && j < |paths|
    ensures paths[j] in Registered(m, paths, insts)
    decreases |paths|
  {
    if j < |paths| - 1 {
      RegisteredFound(m, paths[..|paths| - 1], insts[..|insts| - 1], j);
    }
  }

  /** A path saved only once holds the instance saved there. */
  lemma {:induction false} RegisteredAt(m: map<string, MaterialInstance>, paths: seq<string>, insts: seq<MaterialInstance>, j: nat)
    requires |paths| == |insts| && j < |paths|
    requires forall i :: 0 <= i < |paths| && i != j ==> paths[i] != paths[j]
    ensures paths[j] in Registered(m, paths, insts) && Registered(m, paths, insts)[paths[j]] == insts[j]
    decreases |paths|
  {
    if j < |paths| - 1 {
      RegisteredAt(m, paths[..|paths| - 1], insts[..|insts| - 1], j);
    }
  }

  /** The slots a list of instance lookups adds: one for each path that can be loaded, in order. */
  function InstanceSlots(m: map<string, MaterialInstance>, paths: seq<string>): seq<MaterialSlot>
    decreases |paths|
  {
    if |paths| == 0 then []
    else InstanceSlots(m, paths[..|paths| - 1]) + (if paths[|paths| - 1] in m then [Instanced(m[paths[|paths| - 1]])] else [])
  }

  /** When every path can be loaded, there is one slot per path, holding that path's instance. */
  lemma {:induction false} AllInstancesFound(m: map<string, MaterialInstance>, paths: seq<string>)
    requires forall j :: 0 <= j < |paths| ==> paths[j] in m
    ensures |InstanceSlots(m, paths)| == |paths|
    ensures forall j :: 0 <= j < |paths| ==> InstanceSlots(m, paths)[j] == Instanced(m[paths[j]])
    decreases |paths|
  {
    if |paths| > 0 {
      AllInstancesFound(m, paths[..|paths| - 1]);
    }
  }

  /**
   * The colours of one asset: its model's when models are kept separate,
   * else the unique colours of the file. A static mesh looks up their
   * instances; a voxel asset gets one single-cell mesh per colour.
   */
  function ModelPalette(opt: ImportOption, rq: Request, modelId: nat): seq<uint8>
    requires opt.separateModels ==> modelId < |rq.helpers.modelColors|
  {
    if opt.separateModels then rq.helpers.modelColors[modelId] else rq.helpers.uniqueColors
  }

  /** The material list of a static mesh, given the registry after the materials were made. */
  function StaticMeshMaterials(opt: ImportOption, rq: Request, m: map<string, MaterialInstance>, modelId: nat): seq<MaterialSlot>
    requires opt.separateModels ==> modelId < |rq.helpers.modelColors|
  {
    if !opt.importMaterial then []
    else if opt.oneMaterial then [Shared(Some(OneMaterial(opt, rq)))]
    else InstanceSlots(m, InstancePaths(opt, rq, ModelPalette(opt, rq, modelId)))
  }

  /** The material list of the single-cell mesh for one colour. */
  function CellMeshMaterials(opt: ImportOption, rq: Request, m: map<string, MaterialInstance>, material: Option<MaterialAsset>, color: uint8): seq<MaterialSlot>
  {
    if !opt.importMaterial then []
    else if opt.oneMaterial then [Shared(material)]
    else InstanceSlots(m, InstancePaths(opt, rq, [color]))
  }

  /**
   * The palette texel a single-cell mesh's texture coordinates are moved to:
   * the colour's own, but only when materials are imported and either the
   * palette texture or the one shared material is in use.
   */
  function CellTexel(opt: ImportOption, color: uint8): Option<uint8>
  {
    if opt.importMaterial && (opt.paletteToTexture || opt.oneMaterial) then Some(color) else None
  }

  /**
   * Every single-cell mesh whose material samples the palette texture, the
   * shared one or the colour's instance, has its texture coordinates on its
   * own colour's texel.
   */
  lemma SampledCellsOnOwnTexel(opt: ImportOption, rq: Request, color: uint8)
    requires opt.importMaterial
    requires (opt.oneMaterial && OneMaterial(opt, rq).paletteTexture.Some?)
          || (!opt.oneMaterial && BaseMaterial(opt, rq).paletteTexture.Some?)
    ensures CellTexel(opt, color) == Some(color)
  {
  }

  /** The single-cell mesh for one colour of a voxel asset. */
  predicate CellMeshMade(mesh: StaticMesh, opt: ImportOption, rq: Request, m: map<string, MaterialInstance>,
                         material: Option<MaterialAsset>, modelId: nat, color: uint8)
    reads mesh
  {
    && mesh.name == AssetName(opt, rq, StaticMesh, NameFormatArgs(rq.baseName, color as int, ModelArg(opt, modelId), ""))
    && mesh.source == Some(CellMesh(CellTexel(opt, color)))
    && mesh.materials == CellMeshMaterials(opt, rq, m, material, color)
  }

  /** The size of a voxel asset: its model's, or the biggest. */
  function VoxelSize(opt: ImportOption, rq: Request, modelId: nat): IntVector
    requires opt.separateModels ==> modelId < |rq.vox.sizes|
  {
    if opt.separateModels then rq.vox.sizes[modelId] else rq.helpers.biggestSize
  }

  /** How many assets an import makes: one per model when models are kept separate, else one. */
  function AssetCount(opt: ImportOption, vox: VoxFile): nat
  {
    if opt.separateModels then |vox.models| else 1
  }

  /** The name of the static mesh for one model (or for the whole file). */
  function StaticMeshName(opt: ImportOption, rq: Request, modelId: nat): string
  {
    AssetName(opt, rq, StaticMesh, NameFormatArgs(rq.baseName, -1, ModelArg(opt, modelId), ""))
  }

  /** A static mesh as CreateStaticMeshes leaves it: named, built from its model, with its materials. */
  predicate MeshFilled(mesh: StaticMesh, opt: ImportOption, rq: Request, m: map<string, MaterialInstance>, modelId: nat)
    requires opt.separateModels ==> modelId < |rq.helpers.modelColors|
    reads mesh
  {
    && mesh.name == StaticMeshName(opt, rq, modelId)
    && mesh.source == Some(ModelMesh(modelId))
    && mesh.materials == StaticMeshMaterials(opt, rq, m, modelId)
  }

  /** The material the single-cell meshes share: CreateMaterial's when there is one material, else none. */
  function SharedMaterial(opt: ImportOption, rq: Request): Option<MaterialAsset>
  {
    if opt.importMaterial && opt.oneMaterial then Some(OneMaterial(opt, rq)) else None
  }

  /** The `check` of CreateVoxel: every colour of every cell it adds is in the palette. */
  predicate PaletteCovers(opt: ImportOption, vox: VoxFile, modelId: nat, palette: seq<uint8>)
  {
    if opt.separateModels then modelId < |vox.models| && Covers(palette, vox.models[modelId].voxels)
    else forall m :: 0 <= m < |vox.models| ==> Covers(palette, vox.models[m].voxels)
  }

  /** The name of the voxel asset for one model (or for the whole file). */
  function VoxelName(opt: ImportOption, rq: Request, modelId: nat): string
  {
    AssetName(opt, rq, FormaterObjectType.Voxel, NameFormatArgs(rq.baseName, -1, ModelArg(opt, modelId), ""))
  }

  /** The single-cell meshes of a voxel asset, one per palette colour and in palette order. */
  predicate CellMeshesMade(meshes: seq<StaticMesh>, opt: ImportOption, rq: Request, m: map<string, MaterialInstance>,
                           material: Option<MaterialAsset>, modelId: nat, palette: seq<uint8>)
    reads meshes
  {
    && |meshes| == |palette|
    && forall j :: 0 <= j < |palette| ==> CellMeshMade(meshes[j], opt, rq, m, material, modelId, palette[j])
  }

  /** What a voxel asset with these fields holds, as CreateVoxel leaves it. */
  predicate VoxelHolds(name: string, size: IntVector, meshes: seq<StaticMesh>, voxels: map<IntVector, uint8>,
                       opt: ImportOption, rq: Request, m: map<string, MaterialInstance>,
                       material: Option<MaterialAsset>, modelId: nat, palette: seq<uint8>)
    reads meshes
  {
    && (opt.separateModels ==> modelId < |rq.vox.sizes| && modelId < |rq.vox.models|)
    && name == VoxelName(opt, rq, modelId)
    && size == VoxelSize(opt, rq, modelId)
    && CellMeshesMade(meshes, opt, rq, m, material, modelId, palette)
    && voxels == Remap(CellsOf(opt, rq.vox, modelId), palette)
  }

  /** A voxel asset as CreateVoxel leaves it. */
  predicate VoxelMade(v: UVoxel, opt: ImportOption, rq: Request, m: map<string, MaterialInstance>,
                      material: Option<MaterialAsset>, modelId: nat, palette: seq<uint8>)
    reads v, v.meshes
  {
    VoxelHolds(v.name, v.size, v.meshes, v.voxels, opt, rq, m, material, modelId, palette)
  }

  /**
   * The first |voxels| models have their voxels: distinct, each made for
   * its model from that model's palette.
   */
  ghost predicate ModelVoxelsSoFar(opt: ImportOption, rq: Request, m: map<string, MaterialInstance>,
                                   material: Option<MaterialAsset>, voxels: seq<UVoxel>)
    reads voxels, set i, k | 0 <= i < |voxels| && 0 <= k < |voxels[i].meshes| :: voxels[i].meshes[k]
  {
    && |voxels| <= |rq.helpers.modelColors|
    && (forall i, j :: 0 <= i < j < |voxels| ==> voxels[i] != voxels[j])
    && (forall i :: 0 <= i < |voxels| ==> VoxelMade(voxels[i], opt, rq, m, material, i, rq.helpers.modelColors[i]))
  }

  /** One more model's voxel, distinct from the others and made for it. */
  lemma ModelVoxelsSnoc(opt: ImportOption, rq: Request, m: map<string, MaterialInstance>,
                        material: Option<MaterialAsset>, voxels: seq<UVoxel>, v: UVoxel)
    requires ModelVoxelsSoFar(opt, rq, m, material, voxels) && |voxels| < |rq.helpers.modelColors| && v !in voxels
    requires VoxelMade(v, opt, rq, m, material, |voxels|, rq.helpers.modelColors[|voxels|])
    ensures ModelVoxelsSoFar(opt, rq, m, material, voxels + [v])
  {
    var after := voxels + [v];
    assert after[..|voxels|] == voxels;
  }

  /**
   * Every colour of a static mesh's palette that GenerateMaterials saved an
   * instance for is found: the mesh gets one material slot per colour.
   */
  lemma PaletteFound(opt: ImportOption, rq: Request, m0: map<string, MaterialInstance>,
                     insts: seq<MaterialInstance>, colors: seq<uint8>)
    requires |insts| == |rq.helpers.uniqueColors|
    requires forall j :: 0 <= j < |colors| ==> colors[j] in rq.helpers.uniqueColors
    ensures |InstanceSlots(Registered(m0, InstancePaths(opt, rq, rq.helpers.uniqueColors), insts), InstancePaths(opt, rq, colors))| == |colors|
  {
    var uc := rq.helpers.uniqueColors;
    var saved := InstancePaths(opt, rq, uc);
    var m := Registered(m0, saved, insts);
    var paths := InstancePaths(opt, rq, colors);
    forall j | 0 <= j < |paths|
      ensures paths[j] in m
    {
      assert colors[j] in uc;
      var i :| 0 <= i < |uc| && uc[i] == colors[j];
      RegisteredFound(m0, saved, insts, i);
    }
    AllInstancesFound(m, paths);
  }

  /**
   * When no two unique colours share an instance path, every instance slot a
   * palette gets holds the very instance GenerateMaterials made for that
   * slot's colour.
   */
  lemma SlotsHoldOwnInstance(opt: ImportOption, rq: Request, m0: map<string, MaterialInstance>,
                             insts: seq<MaterialInstance>, colors: seq<uint8>)
    requires |insts| == |rq.helpers.uniqueColors|
    requires forall j :: 0 <= j < |colors| ==> colors[j] in rq.helpers.uniqueColors
    requires forall i, i' :: 0 <= i < i' < |rq.helpers.uniqueColors| ==>
      InstancePath(opt, rq, rq.helpers.uniqueColors[i]) != InstancePath(opt, rq, rq.helpers.uniqueColors[i'])
    ensures var slots := InstanceSlots(Registered(m0, InstancePaths(opt, rq, rq.helpers.uniqueColors), insts), InstancePaths(opt, rq, colors));
      |slots| == |colors| &&
      forall j :: 0 <= j < |colors| ==> slots[j] == Instanced(insts[IndexOf(rq.helpers.uniqueColors, colors[j])])
  {
    var uc := rq.helpers.uniqueColors;
    var saved := InstancePaths(opt, rq, uc);
    var m := Registered(m0, saved, insts);
    var paths := InstancePaths(opt, rq, colors);
    forall j | 0 <= j < |paths|
      ensures paths[j] in m && m[paths[j]] == insts[IndexOf(uc, colors[j])]
    {
      var i := IndexOf(uc, colors[j]);
      forall i' | 0 <= i' < |saved| && i' != i ensures saved[i'] != saved[i] {
        if i' < i {
          assert saved[i'] == InstancePath(opt, rq, uc[i']);
        }
      }
      RegisteredAt(m0, saved, insts, i);
    }
    AllInstancesFound(m, paths);
  }

  /**
   * The end-to-end property of a voxel asset: with distinct colours that
   * cover its cells, every cell points at a single-cell mesh of its own colour.
   */
  lemma CellsShowTheirColour(v: UVoxel, opt: ImportOption, rq: Request, m: map<string, MaterialInstance>,
                             material: Option<MaterialAsset>, modelId: nat, palette: seq<uint8>)
    requires opt.separateModels ==> modelId < |rq.vox.sizes| && modelId < |rq.vox.models|
    requires VoxelMade(v, opt, rq, m, material, modelId, palette)
    requires Distinct(palette) && PaletteCovers(opt, rq.vox, modelId, palette)
    ensures v.voxels.Keys == CellsOf(opt, rq.vox, modelId).Keys
    ensures v.CellsIndexMeshes()
    ensures forall k :: k in v.voxels ==>
      (v.voxels[k] as int) < |v.meshes| && CellMeshMade(v.meshes[v.voxels[k]], opt, rq, m, material, modelId, CellsOf(opt, rq.vox, modelId)[k])
  {
    var cells := CellsOf(opt, rq.vox, modelId);
    if !opt.separateModels {
      MergedCovered(rq.vox.models, palette);
    }
    RemapSlots(cells, palette);
  }

  /**
   * The palette CreateVoxels gives each asset holds distinct colours that
   * cover the asset's cells, so the `check` of CreateVoxel never fails.
   */
  lemma VoxelPaletteValid(opt: ImportOption, rq: Request, i: nat)
    requires UniqueColors(rq.vox, rq.helpers)
    requires opt.separateModels ==> i < |rq.vox.models|
    ensures Distinct(ModelPalette(opt, rq, i)) && PaletteCovers(opt, rq.vox, i, ModelPalette(opt, rq, i))
  {
  }

  // ---------------------------------------------------------------------------
  // The factory
  // ---------------------------------------------------------------------------

  /** The parameter overrides of one instance, written in the order GenerateMaterials writes them. */
  method SetOverrides(mi: MaterialInstance, data: VoxMaterial, linearColor: FColor, textureNotSampled: bool)
    requires mi.params == [] && !mi.translucent
    modifies mi
    ensures mi.params == InstanceParameters(data, linearColor, textureNotSampled)
    ensures mi.translucent == (data.kind == GLASS)
    ensures mi.name == old(mi.name) && mi.parent == old(mi.parent)
  {
    ghost var head: seq<Param> := [];
    if textureNotSampled {
      mi.SetVector("Color", linearColor);
      head := [VectorParam("Color", linearColor)];
    }
    mi.SetScalar("Roughness", data.roughness);
    assert mi.params == head + [ScalarParam("Roughness", data.roughness)];
    if data.kind == GLASS {
      mi.MakeTranslucent();
      mi.SetScalar("Opacity", 1.0 - data.transparency);
    } else if data.kind == METAL {
      mi.SetScalar("Metallic", data.metallic);
    } else if data.kind == EMIT {
      ghost var before := mi.params;
      ghost var e: seq<Param> := [];
      if textureNotSampled {
        mi.SetVector("EmissionColor", linearColor);
        e := [VectorParam("EmissionColor", linearColor)];
      }
      mi.SetScalar("EmissionPower", data.emissionPower);
      mi.SetScalar("Emission", data.emissive);
      assert mi.params == before + (e + [ScalarParam("EmissionPower", data.emissionPower), ScalarParam("Emission", data.emissive)]);
    }
  }

  class UVoxelFactory {
    const importOption: ImportOption

    constructor(importOption: ImportOption)
      ensures this.importOption == importOption
    {
      this.importOption := importOption;
    }

    /** CreateMaterial: one material for every colour, its base colour sampled from the palette texture. */
    method CreateMaterial(rq: Request) returns (material: MaterialAsset)
      ensures material == OneMaterial(importOption, rq)
    {
      var args := DefaultArgs(rq.baseName);
      var materialName := AssetName(importOption, rq, Material, args);
      args := args.(description := "Palette");
      var textureName := AssetName(importOption, rq, Texture, args);
      var baseColor := None;
      if rq.helpers.paletteTextureOk {
        baseColor := Some(textureName);
      }
      material := MaterialAsset(materialName, baseColor);
    }

    /** The instance for one colour, with the overrides its material type calls for. */
    method CreateInstance(rq: Request, parent: string, color: uint8, textureNotSampled: bool) returns (mi: MaterialInstance)
      requires color as int < |rq.vox.palette| && color as int < |rq.vox.materials|
      requires textureNotSampled == TextureNotSampled(importOption, rq.helpers)
      ensures fresh(mi) && InstanceMade(mi, importOption, rq, parent, color)
    {
      var name := AssetName(importOption, rq, MaterialInstance, InstanceArgs(rq, color));
      mi := new MaterialInstance(name, parent);
      SetOverrides(mi, rq.vox.materials[color], rq.vox.palette[color], textureNotSampled);
    }

    /** One iteration of the instance loop: the instance for `color`, saved in `folder`. */
    method SaveInstance(rq: Request, registry: AssetRegistry, folder: string, parent: string, color: uint8, textureNotSampled: bool)
      returns (mi: MaterialInstance, path: string)
      requires color as int < |rq.vox.palette| && color as int < |rq.vox.materials|
      requires textureNotSampled == TextureNotSampled(importOption, rq.helpers)
      requires folder == ResourcesFolder(importOption, rq)
      modifies registry
      ensures fresh(mi) && InstanceMade(mi, importOption, rq, parent, color)
      ensures path == InstancePath(importOption, rq, color)
      ensures registry.instances == old(registry.instances)[path := mi]
    {
      mi := CreateInstance(rq, parent, color, textureNotSampled);
      path := JoinPath(folder, mi.name);
      registry.Register(path, mi);
    }

    /**
     * GenerateMaterials: the base material, then one instance per unique
     * colour, in palette order, each saved in the resources folder.
     */
    method GenerateMaterials(rq: Request, registry: AssetRegistry)
      returns (material: MaterialAsset, outPalette: seq<uint8>, instances: seq<MaterialInstance>)
      requires Indexable(rq.vox, rq.helpers.uniqueColors)
      modifies registry
      ensures outPalette == rq.helpers.uniqueColors
      ensures material == BaseMaterial(importOption, rq)
      ensures |instances| == |outPalette|
      ensures forall j :: 0 <= j < |instances| ==> fresh(instances[j])
      ensures forall i, j :: 0 <= i < j < |instances| ==> instances[i] != instances[j]
      ensures forall j :: 0 <= j < |instances| ==> InstanceMade(instances[j], importOption, rq, material.name, outPalette[j])
      ensures registry.instances == Registered(old(registry.instances), InstancePaths(importOption, rq, outPalette), instances)
    {
      outPalette := rq.helpers.uniqueColors;
      var textureNotSampled: bool;
      material, textureNotSampled := CreateBaseMaterial(rq);
      instances := SaveInstances(rq, registry, material.name, outPalette, textureNotSampled);
    }

    /** The loop of GenerateMaterials: one instance per colour, in order, each saved in the resources folder. */
    method SaveInstances(rq: Request, registry: AssetRegistry, parent: string, colors: seq<uint8>, textureNotSampled: bool)
      returns (instances: seq<MaterialInstance>)
      requires Indexable(rq.vox, colors)
      requires textureNotSampled == TextureNotSampled(importOption, rq.helpers)
      modifies registry
      ensures |instances| == |colors|
      ensures forall j :: 0 <= j < |instances| ==> fresh(instances[j])
      ensures forall i, j :: 0 <= i < j < |instances| ==> instances[i] != instances[j]
      ensures forall j :: 0 <= j < |instances| ==> InstanceMade(instances[j], importOption, rq, parent, colors[j])
      ensures registry.instances == Registered(old(registry.instances), InstancePaths(importOption, rq, colors), instances)
    {
      var folder := ResourcesFolder(importOption, rq);
      instances := [];
      assert colors[..0] == [];
      for j := 0 to |colors|
        invariant |instances| == j
        invariant forall i :: 0 <= i < j ==> fresh(instances[i])
        invariant SavedSoFar(importOption, rq, old(registry.instances), registry.instances, parent, colors, instances)
      {
        var mi := SaveNext(rq, registry, folder, parent, colors, textureNotSampled, old(registry.instances), instances);
        instances := instances + [mi];
      }
      SavedAll(importOption, rq, old(registry.instances), registry.instances, parent, colors, instances);
    }

    /** One iteration of the instance loop, stated on everything saved so far. */
    method SaveNext(rq: Request, registry: AssetRegistry, folder: string, parent: string, colors: seq<uint8>,
                    textureNotSampled: bool, ghost m0: map<string, MaterialInstance>, instances: seq<MaterialInstance>)
      returns (mi: MaterialInstance)
      requires Indexable(rq.vox, colors) && |instances| < |colors|
      requires textureNotSampled == TextureNotSampled(importOption, rq.helpers)
      requires folder == ResourcesFolder(importOption, rq)
      requires SavedSoFar(importOption, rq, m0, registry.instances, parent, colors, instances)
      modifies registry
      ensures fresh(mi)
      ensures SavedSoFar(importOption, rq, m0, registry.instances, parent, colors, instances + [mi])
    {
      var path;
      mi, path := SaveInstance(rq, registry, folder, parent, colors[|instances|], textureNotSampled);
      SavedSnoc(importOption, rq, m0, old(registry.instances), parent, colors, instances, mi);
    }

    /**
     * The base material of GenerateMaterials, and whether its base colour
     * comes from the instances' Color parameter rather than the palette texture.
     */
    method CreateBaseMaterial(rq: Request) returns (material: MaterialAsset, textureNotSampled: bool)
      ensures material == BaseMaterial(importOption, rq)
      ensures textureNotSampled == TextureNotSampled(importOption, rq.helpers)
    {
      var args := DefaultArgs(rq.baseName);
      var materialName := AssetName(importOption, rq, Material, args);
      var textureExpression: Option<string> := None;
      if importOption.paletteToTexture {
        args := args.(description := "Palette");
        var textureName := AssetName(importOption, rq, Texture, args);
        if rq.helpers.paletteTextureOk {
          textureExpression := Some(textureName);
        }
      }
      textureNotSampled := !importOption.paletteToTexture || textureExpression.None?;
      material := MaterialAsset(materialName, textureExpression);
    }

    /** CreateStaticMesh: a new, empty static mesh named for the model. */
    method CreateStaticMesh(rq: Request, modelId: nat) returns (mesh: StaticMesh)
      ensures fresh(mesh)
      ensures mesh.name == StaticMeshName(importOption, rq, modelId) && mesh.source == None && mesh.materials == []
    {
      var args := DefaultArgs(rq.baseName);
      if importOption.separateModels {
        args := args.(modelId := modelId);
      }
      var name := AssetName(importOption, rq, StaticMesh, args);
      mesh := new StaticMesh(name);
    }

    /** The material-instance loop of CreateStaticMeshes and CreateVoxel: one slot per instance LoadObject finds. */
    method AddInstanceSlots(rq: Request, registry: AssetRegistry, mesh: StaticMesh, colors: seq<uint8>)
      modifies mesh
      ensures mesh.materials == old(mesh.materials) + InstanceSlots(registry.instances, InstancePaths(importOption, rq, colors))
      ensures mesh.name == old(mesh.name) && mesh.source == old(mesh.source)
    {
      var folder := ResourcesFolder(importOption, rq);
      ghost var paths := InstancePaths(importOption, rq, colors);
      for j := 0 to |colors|
        invariant mesh.materials == old(mesh.materials) + InstanceSlots(registry.instances, paths[..j])
        invariant mesh.name == old(mesh.name) && mesh.source == old(mesh.source)
      {
        var name := AssetName(importOption, rq, MaterialInstance, InstanceArgs(rq, colors[j]));
        var found := registry.Find(JoinPath(folder, name));
        assert paths[..j + 1][..j] == paths[..j];
        if found.Some? {
          mesh.AddMaterial(Instanced(found.value));
        }
      }
      assert paths[..|colors|] == paths;
    }

    /** One iteration of the second loop of CreateStaticMeshes: materials, then the raw mesh of the model. */
    method FillStaticMesh(rq: Request, registry: AssetRegistry, mesh: StaticMesh, modelId: nat,
                          material: Option<MaterialAsset>, palette: seq<uint8>)
      requires importOption.separateModels ==> modelId < |rq.helpers.modelColors|
      requires importOption.importMaterial && importOption.oneMaterial ==> material == Some(OneMaterial(importOption, rq))
      requires importOption.importMaterial && !importOption.oneMaterial && !importOption.separateModels ==> palette == rq.helpers.uniqueColors
      requires mesh.name == StaticMeshName(importOption, rq, modelId) && mesh.materials == []
      modifies mesh
      ensures MeshFilled(mesh, importOption, rq, registry.instances, modelId)
    {
      if importOption.importMaterial {
        if importOption.oneMaterial {
          mesh.AddMaterial(Shared(material));
        } else {
          var modelPalette := if importOption.separateModels then rq.helpers.modelColors[modelId] else palette;
          AddInstanceSlots(rq, registry, mesh, modelPalette);
        }
      }
      mesh.Build(ModelMesh(modelId));
    }

    /**
     * CreateStaticMeshes: the materials first, then one static mesh per model
     * (or one for the whole file), each built from its model and given the
     * shared material or the instances of its colours.
     */
    method CreateStaticMeshes(rq: Request, registry: AssetRegistry) returns (meshes: seq<StaticMesh>, ghost instances: seq<MaterialInstance>)
      requires |rq.helpers.modelColors| == |rq.vox.models|
      requires importOption.importMaterial && !importOption.oneMaterial ==> Indexable(rq.vox, rq.helpers.uniqueColors)
      modifies registry
      ensures |meshes| == AssetCount(importOption, rq.vox)
      ensures forall i :: 0 <= i < |meshes| ==> fresh(meshes[i])
      ensures forall i, j :: 0 <= i < j < |meshes| ==> meshes[i] != meshes[j]
      ensures forall i :: 0 <= i < |meshes| ==> MeshFilled(meshes[i], importOption, rq, registry.instances, i)
      ensures !importOption.importMaterial || importOption.oneMaterial ==> registry.instances == old(registry.instances)
      ensures importOption.importMaterial && !importOption.oneMaterial ==>
        (forall j :: 0 <= j < |instances| ==> fresh(instances[j]))
        && InstancesSaved(importOption, rq, old(registry.instances), registry.instances, instances)
      ensures importOption.importMaterial && !importOption.oneMaterial ==>
        forall i :: 0 <= i < |meshes| && (forall j :: 0 <= j < |ModelPalette(importOption, rq, i)| ==> ModelPalette(importOption, rq, i)[j] in rq.helpers.uniqueColors)
          ==> |meshes[i].materials| == |ModelPalette(importOption, rq, i)|
    {
      var material, palette;
      material, palette, instances := MeshMaterials(rq, registry);
      meshes := BuildStaticMeshes(rq, registry, material, palette);

      if importOption.importMaterial && !importOption.oneMaterial {
        forall i | 0 <= i < |meshes| && (forall j :: 0 <= j < |ModelPalette(importOption, rq, i)| ==> ModelPalette(importOption, rq, i)[j] in rq.helpers.uniqueColors)
          ensures |meshes[i].materials| == |ModelPalette(importOption, rq, i)|
        {
          PaletteFound(importOption, rq, old(registry.instances), instances, ModelPalette(importOption, rq, i));
        }
      }
    }

    /** The two mesh loops of CreateStaticMeshes: the empty meshes, then each filled for its model. */
    method BuildStaticMeshes(rq: Request, registry: AssetRegistry, material: Option<MaterialAsset>, palette: seq<uint8>)
      returns (meshes: seq<StaticMesh>)
      requires |rq.helpers.modelColors| == |rq.vox.models|
      requires importOption.importMaterial && importOption.oneMaterial ==> material == Some(OneMaterial(importOption, rq))
      requires importOption.importMaterial && !importOption.oneMaterial && !importOption.separateModels ==> palette == rq.helpers.uniqueColors
      ensures |meshes| == AssetCount(importOption, rq.vox)
      ensures forall i :: 0 <= i < |meshes| ==> fresh(meshes[i])
      ensures forall i, j :: 0 <= i < j < |meshes| ==> meshes[i] != meshes[j]
      ensures forall i :: 0 <= i < |meshes| ==> MeshFilled(meshes[i], importOption, rq, registry.instances, i)
    {
      var count := if importOption.separateModels then |rq.vox.models| else 1;
      meshes := CreateEmptyMeshes(rq, count);
      FillStaticMeshes(rq, registry, meshes, material, palette);
    }

    /** The first part of CreateStaticMeshes: the shared material, or the instances and their palette. */
    method MeshMaterials(rq: Request, registry: AssetRegistry)
      returns (material: Option<MaterialAsset>, palette: seq<uint8>, ghost instances: seq<MaterialInstance>)
      requires importOption.importMaterial && !importOption.oneMaterial ==> Indexable(rq.vox, rq.helpers.uniqueColors)
      modifies registry
      ensures importOption.importMaterial && importOption.oneMaterial ==> material == Some(OneMaterial(importOption, rq))
      ensures importOption.importMaterial && !importOption.oneMaterial ==> palette == rq.helpers.uniqueColors
      ensures !importOption.importMaterial || importOption.oneMaterial ==> registry.instances == old(registry.instances)
      ensures importOption.importMaterial && !importOption.oneMaterial ==>
        (forall j :: 0 <= j < |instances| ==> fresh(instances[j]))
        && InstancesSaved(importOption, rq, old(registry.instances), registry.instances, instances)
    {
      material := None;
      palette := [];
      instances := [];
      if importOption.importMaterial {
        if importOption.oneMaterial {
          var m := CreateMaterial(rq);
          material := Some(m);
        } else {
          var m;
          m, palette, instances := GenerateMaterials(rq, registry);
        }
      }
    }

    /** The first model loop of CreateStaticMeshes: one new, empty, named static mesh per model. */
    method CreateEmptyMeshes(rq: Request, count: nat) returns (meshes: seq<StaticMesh>)
      ensures |meshes| == count
      ensures forall j :: 0 <= j < count ==> fresh(meshes[j])
      ensures forall j, j' :: 0 <= j < j' < count ==> meshes[j] != meshes[j']
      ensures forall j :: 0 <= j < count ==> meshes[j].name == StaticMeshName(importOption, rq, j) && meshes[j].materials == []
    {
      meshes := [];
      for i := 0 to count
        invariant |meshes| == i
        invariant forall j :: 0 <= j < i ==> fresh(meshes[j])
        invariant forall j, j' :: 0 <= j < j' < i ==> meshes[j] != meshes[j']
        invariant forall j :: 0 <= j < i ==> meshes[j].name == StaticMeshName(importOption, rq, j) && meshes[j].materials == []
      {
        var mesh := CreateStaticMesh(rq, i);
        meshes := meshes + [mesh];
      }
    }

    /** The second model loop of CreateStaticMeshes: every mesh gets its materials and its raw mesh. */
    method FillStaticMeshes(rq: Request, registry: AssetRegistry, meshes: seq<StaticMesh>,
                            material: Option<MaterialAsset>, palette: seq<uint8>)
      requires importOption.separateModels ==> |meshes| <= |rq.helpers.modelColors|
      requires importOption.importMaterial && importOption.oneMaterial ==> material == Some(OneMaterial(importOption, rq))
      requires importOption.importMaterial && !importOption.oneMaterial && !importOption.separateModels ==> palette == rq.helpers.uniqueColors
      requires forall j, j' :: 0 <= j < j' < |meshes| ==> meshes[j] != meshes[j']
      requires forall j :: 0 <= j < |meshes| ==> meshes[j].name == StaticMeshName(importOption, rq, j) && meshes[j].materials == []
      modifies set mesh | mesh in meshes
      ensures forall j :: 0 <= j < |meshes| ==> MeshFilled(meshes[j], importOption, rq, registry.instances, j)
    {
      for i := 0 to |meshes|
        invariant forall j :: 0 <= j < i ==> MeshFilled(meshes[j], importOption, rq, registry.instances, j)
        invariant forall j :: i <= j < |meshes| ==> meshes[j].name == StaticMeshName(importOption, rq, j) && meshes[j].materials == []
      {
        FillStaticMesh(rq, registry, meshes[i], i, material, palette);
      }
    }

    /** CreateUVoxel: a new voxel asset named for the model, sized to it (or to the biggest model). */
    method CreateUVoxel(rq: Request, modelId: nat) returns (v: UVoxel)
      requires importOption.separateModels ==> modelId < |rq.vox.sizes|
      ensures fresh(v)
      ensures v.name == VoxelName(importOption, rq, modelId) && v.size == VoxelSize(importOption, rq, modelId)
      ensures v.xyCenter && v.meshes == [] && v.voxels == map[]
    {
      var finalSize := ZeroVector;
      var args := DefaultArgs(rq.baseName);
      if importOption.separateModels {
        args := args.(modelId := modelId);
        finalSize := rq.vox.sizes[modelId];
      } else {
        finalSize := rq.helpers.biggestSize;
      }
      var name := AssetName(importOption, rq, FormaterObjectType.Voxel, args);
      v := new UVoxel(name);
      v.size := finalSize;
    }

    /** The single-cell static mesh for one colour of a voxel asset. */
    method CreateCellMesh(rq: Request, registry: AssetRegistry, material: Option<MaterialAsset>, modelId: nat, color: uint8)
      returns (mesh: StaticMesh)
      ensures fresh(mesh) && CellMeshMade(mesh, importOption, rq, registry.instances, material, modelId, color)
    {
      var args := NameFormatArgs(rq.baseName, color as int, -1, "");
      if importOption.separateModels {
        args := args.(modelId := modelId);
      }
      var name := AssetName(importOption, rq, StaticMesh, args);
      mesh := new StaticMesh(name);
      var texel := None;
      if importOption.importMaterial {
        if importOption.oneMaterial {
          mesh.AddMaterial(Shared(material));
        } else {
          AddInstanceSlots(rq, registry, mesh, [color]);
        }
        if importOption.paletteToTexture || importOption.oneMaterial {
          texel := Some(color);
        }
      }
      mesh.Build(CellMesh(texel));
    }

    /** The cell loop of CreateVoxel for one model: each cell stores the slot of its colour (TMap::Add). */
    method AddCells(v: UVoxel, cells: map<IntVector, uint8>, palette: seq<uint8>)
      requires Covers(palette, cells)
      modifies v
      ensures v.voxels == old(v.voxels) + Remap(cells, palette)
      ensures v.name == old(v.name) && v.size == old(v.size) && v.xyCenter == old(v.xyCenter) && v.meshes == old(v.meshes)
    {
      var remaining := cells.Keys;
      assert cells - remaining == map[];
      while remaining != {}
        invariant remaining <= cells.Keys
        invariant v.voxels == old(v.voxels) + Remap(cells - remaining, palette)
        invariant v.name == old(v.name) && v.size == old(v.size) && v.xyCenter == old(v.xyCenter) && v.meshes == old(v.meshes)
        decreases remaining
      {
        var k :| k in remaining;
        var index := IndexOf(palette, cells[k]);
        AddOneCell(old(v.voxels), cells, remaining, k, palette);
        v.voxels := v.voxels[k := ToUint8(index)];
        assert index != -1;
        remaining := remaining - {k};
      }
      assert cells - {} == cells;
    }

    /**
     * CreateVoxel: one single-cell mesh per palette colour, then the cells of
     * the model (or of every model, a later one overwriting an earlier one),
     * each holding the slot of its colour in the palette.
     */
    method CreateVoxel(rq: Request, registry: AssetRegistry, material: Option<MaterialAsset>, palette: seq<uint8>, modelId: nat)
      returns (v: UVoxel)
      requires importOption.separateModels ==> modelId < |rq.vox.sizes| && modelId < |rq.vox.models|
      requires PaletteCovers(importOption, rq.vox, modelId, palette)
      ensures fresh(v) && v.xyCenter
      ensures forall j :: 0 <= j < |v.meshes| ==> fresh(v.meshes[j])
      ensures VoxelMade(v, importOption, rq, registry.instances, material, modelId, palette)
    {
      v := CreateUVoxel(rq, modelId);
      AddCellMeshes(rq, registry, v, material, modelId, palette);
      AddVoxelCells(rq, v, modelId, palette);
    }

    /** The cells of CreateVoxel: the model's own, or every model's merged, each mapped to its palette index. */
    method AddVoxelCells(rq: Request, v: UVoxel, modelId: nat, palette: seq<uint8>)
      requires PaletteCovers(importOption, rq.vox, modelId, palette)
      requires v.voxels == map[]
      modifies v
      ensures importOption.separateModels ==> modelId < |rq.vox.models|
      ensures v.voxels == Remap(CellsOf(importOption, rq.vox, modelId), palette)
      ensures v.name == old(v.name) && v.size == old(v.size) && v.xyCenter == old(v.xyCenter) && v.meshes == old(v.meshes)
    {
      if importOption.separateModels {
        AddCells(v, rq.vox.models[modelId].voxels, palette);
        assert v.voxels == Remap(rq.vox.models[modelId].voxels, palette);
      } else {
        AddMergedCells(v, rq.vox.models, palette);
      }
    }

    /** The colour loop of CreateVoxel: one single-cell mesh per palette colour, appended in palette order. */
    method AddCellMeshes(rq: Request, registry: AssetRegistry, v: UVoxel, material: Option<MaterialAsset>, modelId: nat, palette: seq<uint8>)
      requires v.meshes == []
      modifies v
      ensures CellMeshesMade(v.meshes, importOption, rq, registry.instances, material, modelId, palette)
      ensures forall j :: 0 <= j < |v.meshes| ==> fresh(v.meshes[j])
      ensures v.name == old(v.name) && v.size == old(v.size) && v.xyCenter == old(v.xyCenter) && v.voxels == old(v.voxels)
    {
      for j := 0 to |palette|
        invariant v.name == old(v.name) && v.size == old(v.size) && v.xyCenter == old(v.xyCenter) && v.voxels == old(v.voxels)
        invariant |v.meshes| == j
        invariant forall i :: 0 <= i < j ==> fresh(v.meshes[i])
        invariant forall i :: 0 <= i < j ==> CellMeshMade(v.meshes[i], importOption, rq, registry.instances, material, modelId, palette[i])
      {
        var mesh := CreateCellMesh(rq, registry, material, modelId, palette[j]);
        v.meshes := v.meshes + [mesh];
      }
    }

    /** The merged branch of CreateVoxel: the cells of every model, in model order. */
    method AddMergedCells(v: UVoxel, models: seq<ModelData>, palette: seq<uint8>)
      requires v.voxels == map[]
      requires forall m :: 0 <= m < |models| ==> Covers(palette, models[m].voxels)
      modifies v
      ensures v.voxels == Remap(MergedCells(models), palette)
      ensures v.name == old(v.name) && v.size == old(v.size) && v.xyCenter == old(v.xyCenter) && v.meshes == old(v.meshes)
    {
      for m := 0 to |models|
        invariant v.voxels == Remap(MergedCells(models[..m]), palette)
        invariant v.name == old(v.name) && v.size == old(v.size) && v.xyCenter == old(v.xyCenter) && v.meshes == old(v.meshes)
      {
        AddCells(v, models[m].voxels, palette);
        MergedStep(models, m);
        RemapUnion(MergedCells(models[..m]), models[m].voxels, palette);
      }
      assert models[..|models|] == models;
    }

    /**
     * CreateVoxels: the materials, then one voxel asset per model (or one for
     * the whole file), each XY-centred as the option says.
     */
    method CreateVoxels(rq: Request, registry: AssetRegistry) returns (voxels: seq<UVoxel>, ghost instances: seq<MaterialInstance>)
      requires UniqueColors(rq.vox, rq.helpers) && |rq.vox.sizes| == |rq.vox.models|
      requires importOption.importMaterial && !importOption.oneMaterial ==> Indexable(rq.vox, rq.helpers.uniqueColors)
      modifies registry
      ensures |voxels| == AssetCount(importOption, rq.vox)
      ensures forall i :: 0 <= i < |voxels| ==> fresh(voxels[i]) && voxels[i].xyCenter == importOption.importXYCenter
      ensures forall i, j :: 0 <= i < j < |voxels| ==> voxels[i] != voxels[j]
      ensures forall i :: 0 <= i < |voxels| ==>
        VoxelMade(voxels[i], importOption, rq, registry.instances, SharedMaterial(importOption, rq), i, ModelPalette(importOption, rq, i))
      ensures !importOption.importMaterial || importOption.oneMaterial ==> registry.instances == old(registry.instances)
      ensures importOption.importMaterial && !importOption.oneMaterial ==>
        (forall j :: 0 <= j < |instances| ==> fresh(instances[j]))
        && InstancesSaved(importOption, rq, old(registry.instances), registry.instances, instances)
    {
      var material, palette;
      material, palette, instances := VoxelMaterials(rq, registry);
      voxels := CreateVoxelAssets(rq, registry, material, palette);
    }

    /** The voxel assets of CreateVoxels: one per model, or one for the whole file, then each XY-centred as the option says. */
    method CreateVoxelAssets(rq: Request, registry: AssetRegistry, material: Option<MaterialAsset>, palette: seq<uint8>)
      returns (voxels: seq<UVoxel>)
      requires UniqueColors(rq.vox, rq.helpers) && |rq.vox.sizes| == |rq.vox.models|
      requires !importOption.separateModels ==> palette == rq.helpers.uniqueColors
      ensures |voxels| == AssetCount(importOption, rq.vox)
      ensures forall i :: 0 <= i < |voxels| ==> fresh(voxels[i]) && voxels[i].xyCenter == importOption.importXYCenter
      ensures forall i, j :: 0 <= i < j < |voxels| ==> voxels[i] != voxels[j]
      ensures forall i :: 0 <= i < |voxels| ==>
        VoxelMade(voxels[i], importOption, rq, registry.instances, material, i, ModelPalette(importOption, rq, i))
    {
      if importOption.separateModels {
        voxels := CreateModelVoxels(rq, registry, material);
      } else {
        VoxelPaletteValid(importOption, rq, 0);
        var v := CreateVoxel(rq, registry, material, palette, 0);
        voxels := [v];
      }
      SetXYCenter(voxels, importOption.importXYCenter);
    }

    /** The last loop of CreateVoxels: every voxel asset gets the XY-centre flag of the options. */
    method SetXYCenter(voxels: seq<UVoxel>, center: bool)
      modifies set v | v in voxels
      ensures forall i :: 0 <= i < |voxels| ==> voxels[i].xyCenter == center
      ensures forall i :: 0 <= i < |voxels| ==> voxels[i].name == old(voxels[i].name) && voxels[i].size == old(voxels[i].size)
      ensures forall i :: 0 <= i < |voxels| ==> voxels[i].meshes == old(voxels[i].meshes) && voxels[i].voxels == old(voxels[i].voxels)
    {
      for i := 0 to |voxels|
        invariant forall j :: 0 <= j < i ==> voxels[j].xyCenter == center
        invariant forall j :: 0 <= j < |voxels| ==> voxels[j].name == old(voxels[j].name) && voxels[j].size == old(voxels[j].size)
        invariant forall j :: 0 <= j < |voxels| ==> voxels[j].meshes == old(voxels[j].meshes) && voxels[j].voxels == old(voxels[j].voxels)
      {
        voxels[i].xyCenter := center;
      }
    }

    /**
     * The first part of CreateVoxels: the shared material or the instances,
     * and the palette of the merged asset (the unique colours of the file).
     */
    method VoxelMaterials(rq: Request, registry: AssetRegistry)
      returns (material: Option<MaterialAsset>, palette: seq<uint8>, ghost instances: seq<MaterialInstance>)
      requires importOption.importMaterial && !importOption.oneMaterial ==> Indexable(rq.vox, rq.helpers.uniqueColors)
      modifies registry
      ensures material == SharedMaterial(importOption, rq)
      ensures !importOption.separateModels ==> palette == rq.helpers.uniqueColors
      ensures !importOption.importMaterial || importOption.oneMaterial ==> registry.instances == old(registry.instances)
      ensures importOption.importMaterial && !importOption.oneMaterial ==>
        (forall j :: 0 <= j < |instances| ==> fresh(instances[j]))
        && InstancesSaved(importOption, rq, old(registry.instances), registry.instances, instances)
    {
      material := None;
      palette := [];
      instances := [];
      if importOption.importMaterial {
        if importOption.oneMaterial {
          var m := CreateMaterial(rq);
          material := Some(m);
          if !importOption.separateModels {
            palette := rq.helpers.uniqueColors;
          }
        } else {
          var m;
          m, palette, instances := GenerateMaterials(rq, registry);
        }
      } else if !importOption.separateModels {
        palette := rq.helpers.uniqueColors;
      }
    }

    /** The model loop of CreateVoxels: one voxel asset per model, with that model's colours. */
    method CreateModelVoxels(rq: Request, registry: AssetRegistry, material: Option<MaterialAsset>) returns (voxels: seq<UVoxel>)
      requires importOption.separateModels
      requires UniqueColors(rq.vox, rq.helpers) && |rq.vox.sizes| == |rq.vox.models|
      ensures |voxels| == |rq.vox.models|
      ensures forall i :: 0 <= i < |voxels| ==> fresh(voxels[i])
      ensures forall i, j :: 0 <= i < j < |voxels| ==> voxels[i] != voxels[j]
      ensures forall i :: 0 <= i < |voxels| ==>
        VoxelMade(voxels[i], importOption, rq, registry.instances, material, i, rq.helpers.modelColors[i])
    {
      voxels := [];
      for i := 0 to |rq.vox.models|
        invariant |voxels| == i
        invariant forall j :: 0 <= j < i ==> fresh(voxels[j])
        invariant ModelVoxelsSoFar(importOption, rq, registry.instances, material, voxels)
      {
        var v := CreateNextModelVoxel(rq, registry, material, voxels);
        voxels := voxels + [v];
      }
    }

    /** One iteration of the per-model loop, stated on every voxel made so far. */
    method CreateNextModelVoxel(rq: Request, registry: AssetRegistry, material: Option<MaterialAsset>, voxels: seq<UVoxel>)
      returns (v: UVoxel)
      requires importOption.separateModels
      requires UniqueColors(rq.vox, rq.helpers) && |rq.vox.sizes| == |rq.vox.models| && |voxels| < |rq.vox.models|
      requires ModelVoxelsSoFar(importOption, rq, registry.instances, material, voxels)
      ensures fresh(v)
      ensures ModelVoxelsSoFar(importOption, rq, registry.instances, material, voxels + [v])
    {
      var i := |voxels|;
      var modelPalette := rq.helpers.modelColors[i];
      v := CreateVoxel(rq, registry, material, modelPalette, i);
      ModelVoxelsSnoc(importOption, rq, registry.instances, material, voxels, v);
    }
  }
}
