/**
 * The engine objects the voxel factory creates and fills in: static meshes
 * and their material slots, materials, material instances and their
 * parameter overrides, and the content registry in which LoadObject finds
 * material instances by package path. Only the state the factory sets is
 * kept; rendering data, packages and editor notifications are not modelled.
 */
module Engine {
  import opened Wrappers
  import opened Vox

  /** The raw mesh a static mesh was built from. */
  datatype MeshSource =
    | ModelMesh(modelId: nat)    // FVox::CreateOptimizedRawMesh for one model
    | CellMesh(paletteUV: Option<uint8>)
      // FVox::CreateVoxelRawMesh, one cell; Some(c) when its texture
      // coordinates were all set to the palette texel of colour c, None when
      // they were left as the raw mesh had them

  /**
   * A UMaterial made by the factory: its asset name and, when its base colour
   * samples the palette texture, that texture's asset name.
   */
  datatype MaterialAsset = MaterialAsset(name: string, paletteTexture: Option<string>)

  /**
   * A material-instance parameter override. Vector parameters carry the sRGB
   * palette colour they are made from.
   */
  datatype Param =
    | ScalarParam(name: string, value: real)
    | VectorParam(name: string, color: FColor)

  /** UMaterialInstanceConstant. */
  class MaterialInstance {
    var name: string
    var parent: string
    var params: seq<Param>
    var translucent: bool

    /** NewObject followed by SetParentEditorOnly. */
    constructor(name: string, parent: string)
      ensures this.name == name && this.parent == parent
      ensures params == [] && !translucent
    {
      this.name := name;
      this.parent := parent;
      params := [];
      translucent := false;
    }

    /** SetScalarParameterValueEditorOnly. */
    method SetScalar(n: string, v: real)
      modifies this
      ensures params == old(params) + [ScalarParam(n, v)]
      ensures name == old(name) && parent == old(parent) && translucent == old(translucent)
    {
      params := params + [ScalarParam(n, v)];
    }

    /** SetVectorParameterValueEditorOnly. */
    method SetVector(n: string, c: FColor)
      modifies this
      ensures params == old(params) + [VectorParam(n, c)]
      ensures name == old(name) && parent == old(parent) && translucent == old(translucent)
    {
      params := params + [VectorParam(n, c)];
    }

    /** Overriding the blend mode with BLEND_Translucent. */
    method MakeTranslucent()
      modifies this
      ensures translucent
      ensures name == old(name) && parent == old(parent) && params == old(params)
    {
      translucent := true;
    }
  }

  /** An entry of a static mesh's material list (FStaticMaterial). */
  datatype MaterialSlot =
    | Shared(material: Option<MaterialAsset>)    // the one material; None when the factory passed no material
    | Instanced(instance: MaterialInstance)

  /** UStaticMesh. */
  class StaticMesh {
    var name: string
    var source: Option<MeshSource>
    var materials: seq<MaterialSlot>

    constructor(name: string)
      ensures this.name == name && source == None && materials == []
    {
      this.name := name;
      source := None;
      materials := [];
    }

    /** GetStaticMaterials().Add. */
    method AddMaterial(m: MaterialSlot)
      modifies this
      ensures materials == old(materials) + [m]
      ensures name == old(name) && source == old(source)
    {
      materials := materials + [m];
    }

    /** BuildStaticMesh: the mesh now holds the given raw mesh. */
    method Build(s: MeshSource)
      modifies this
      ensures source == Some(s)
      ensures name == old(name) && materials == old(materials)
    {
      source := Some(s);
    }
  }

  /** The material instances LoadObject can find, by package path. */
  class AssetRegistry {
    var instances: map<string, MaterialInstance>

    constructor(instances: map<string, MaterialInstance>)
      ensures this.instances == instances
    {
      this.instances := instances;
    }

    /** A new material instance saved at `path`; one saved there before is replaced. */
    method Register(path: string, mi: MaterialInstance)
      modifies this
      ensures instances == old(instances)[path := mi]
    {
      instances := instances[path := mi];
    }

    /** LoadObject<UMaterialInstanceConstant>: the instance at `path`, if there is one. */
    function Find(path: string): (r: Option<MaterialInstance>)
      reads this
      ensures r.Some? <==> path in instances
      ensures r.Some? ==> r.value == instances[path]
    {
      if path in instances then Some(instances[path]) else None
    }
  }
}
