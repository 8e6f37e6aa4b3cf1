# VOX4U asset naming and voxel-asset assembly, in Dafny

VOX4U is an Unreal Engine plugin that imports MagicaVoxel `.vox` files. This
project models the two parts of its editor module whose behaviour is fully
visible in the sources: the asset-name pattern engine (`NameFormater`) and
the rules by which the voxel factory (`UVoxelFactory`) assembles static
meshes, voxel assets, materials and material instances from a parsed file.

- `fstring.dfy` (module `FString`): the two pieces of Unreal's `FString`
  the naming code relies on. `ReplaceInline` is a loop that is proved equal to
  the specification function `ReplaceAll`, which replaces occurrences left to
  right, without overlap and without rescanning a replacement. `FromInt` is
  unpadded decimal.
  The case mode is an explicit parameter `SearchCase`. `ApplyPattern` uses
  `IgnoreCase`, which is the engine's default. Case folding is ASCII only.
- `name_formater.dfy` (module `NameFormater`): `ApplyPattern` runs the
  sixteen placeholder steps, and `GetPattern` and `GetFormatedName` are
  modelled too. The naming table is an optional map from row name to pattern.
  `None` is a table that failed to load. FName row lookup ignores case, so the
  map is keyed by the lower-cased row name.
- `vox.dfy` (module `Vox`): the parsed file (`FVox`) and the material record
  (`FVoxMaterial`, with its defaults). It also holds the results of the FVox
  helpers whose bodies are not part of this model (`GetUniqueColors`,
  `GetBiggestSize`, `CreatePaletteTexture`). They enter as values, and the
  factory relies only on what `UniqueColors` states about them: the colours
  are distinct and cover every colour the cells use.
- `engine.dfy` (module `Engine`): stand-ins for the engine objects the factory
  fills in: static meshes with material slots, material instances with
  parameter overrides, and the content registry in which `LoadObject` finds
  instances by path.
- `voxel.dfy` (module `Voxel`): the `UVoxel` asset.
- `voxel_factory.dfy` (module `VoxelFactory`): the factory. Each asset an
  import creates is tied to a specification predicate (`MeshFilled`,
  `VoxelMade`, `InstanceMade`). The lemmas state what those predicates imply.

Asset names enter the factory as a `Naming` function. `NamingFor` shows that
the editor's naming is `GetFormatedName` over the naming table. The factory's
contracts hold for every naming.

## Model

| member | source | states |
|---|---|---|
| `FString.ReplaceInline` | Source/VOX4UEditor/Private/NameFormater.cpp:73 | the in-place replace loop yields exactly `ReplaceAll`: every occurrence, left to right, non-overlapping, replacement text never searched again; empty string or empty search text changes nothing |
| `FString.ReplaceAllAbsent` | Source/VOX4UEditor/Private/NameFormater.cpp:70-96 | replacing a text that occurs nowhere leaves the string unchanged |
| `FString.NoMatchAt` | Source/VOX4UEditor/Private/NameFormater.cpp:73 | where no occurrence of the search text starts, the replace keeps that character and goes on with the next one |
| `FString.FromIntDecimal` | Source/VOX4UEditor/Private/NameFormater.cpp:74-75 | for n >= 0, `FromInt(n)` is a non-empty string of digits, without a leading zero, whose decimal value is n |
| `NameFormater.ApplyPattern` | Source/VOX4UEditor/Private/NameFormater.cpp:68-97 | the sixteen case-insensitive replace calls, in the source's order, give `FormatPattern`, the sixteen steps BaseName, ModelId, Color, Description for each of the decorations {X}, {_X}, {X_}, {_X_} |
| `NameFormater.ReplaceInPieces` | Source/VOX4UEditor/Private/NameFormater.cpp:73-94 | one replace step over a pattern of brace-free text and placeholders turns exactly the placeholders equal to the searched one into the replacement, whatever the replacement holds, and keeps every other piece |
| `NameFormater.RunPieces` | Source/VOX4UEditor/Private/NameFormater.cpp:73-94 | for a pattern whose text between placeholders holds no brace and whose expansions hold no brace: after the first k steps, exactly the placeholders whose step is among them have become their expansions, all others are still there, and the text between them is kept |
| `NameFormater.FormatPieces` | Source/VOX4UEditor/Private/NameFormater.cpp:70-96 | a pattern of any number of placeholders between brace-free texts becomes the same pattern with every placeholder replaced by its expansion, provided no expansion holds a brace |
| `NameFormater.SplitAround` | Source/VOX4UEditor/Private/NameFormater.cpp:70-96 | when the text of `pre` and `post` holds no brace and no expansion in them or of the placeholder holds a brace: the name of `pre ++ placeholder ++ post` is the name of `pre`, then the placeholder's expansion, then the name of `post` |
| `NameFormater.UnsetVanishes` | Source/VOX4UEditor/Private/NameFormater.cpp:74-93 | a ModelId or Color placeholder whose value is negative is deleted outright, decoration underscores included, wherever it stands among other placeholders: the name is the name of the text before it followed by the name of the text after it |
| `NameFormater.AllUnsetVanish` | Source/VOX4UEditor/Private/NameFormater.cpp:74-93 | in a pattern whose text between placeholders holds no brace and whose expansions hold no brace, all placeholders of an unset ModelId or Color vanish together: the name equals the name of the pattern with them erased |
| `NameFormater.WithoutExpanded` | Source/VOX4UEditor/Private/NameFormater.cpp:74-93 | erasing the placeholders of an unset ModelId or Color keeps the pattern brace-free and does not change what it expands to |
| `NameFormater.UnsetModelIdExample` | Source/VOX4UEditor/Private/NameFormater.cpp:92 | with ModelId < 0 and brace-free a and b, `a{_ModelId_}b` becomes `ab` |
| `NameFormater.SetPlaceholder` | Source/VOX4UEditor/Private/NameFormater.cpp:73-94 | a placeholder whose field is set becomes the value with the decoration's leading and trailing underscores, even when the value is empty, wherever it stands among other placeholders |
| `NameFormater.NumberPlaceholder` | Source/VOX4UEditor/Private/NameFormater.cpp:74-93 | for ModelId or Color n >= 0, wherever the placeholder stands among others: {X} gives dec(n), {_X} gives "_" + dec(n), {X_} gives dec(n) + "_", {_X_} gives "_" + dec(n) + "_" |
| `NameFormater.InstancePatternExample` | Source/VOX4UEditor/Private/NameFormater.cpp:73-81 | two placeholders in one pattern: for a base name holding no brace, `MI_{BaseName}{_Color}` gives `MI_` + base name, followed by `_` + dec(Color) only when Color >= 0 |
| `NameFormater.ColorSuffixExample` | Source/VOX4UEditor/Private/NameFormater.cpp:81 | with Color 3 and brace-free a and b, `a{_Color}b` becomes `a_3b` |
| `NameFormater.EmptyDescriptionExample` | Source/VOX4UEditor/Private/NameFormater.cpp:94 | with an empty Description and brace-free a and b, `a{_Description_}b` still becomes a + `__` + b |
| `NameFormater.FormatWithoutPlaceholders` | Source/VOX4UEditor/Private/NameFormater.cpp:70-96 | a pattern holding none of the sixteen placeholders, in any letter case, is returned unchanged |
| `NameFormater.FormatIsolated` | Source/VOX4UEditor/Private/NameFormater.cpp:70-96 | a lone placeholder between brace-free texts, whose expansion holds no brace, becomes its expansion and the surrounding text is kept |
| `NameFormater.RunIsolated` | Source/VOX4UEditor/Private/NameFormater.cpp:73-94 | a placeholder between brace-free texts is touched only by its own step: before that step it survives; after it, provided its expansion holds no brace, the expansion is left alone by every later step |
| `NameFormater.TokenMatchSame` | Source/VOX4UEditor/Private/NameFormater.cpp:73-94 | no placeholder matches at the start of a different placeholder, even ignoring case, so the sixteen steps never interfere with one another |
| `NameFormater.LaterStepRewritesEarlierValue` | Source/VOX4UEditor/Private/NameFormater.cpp:73-75 | a later step rewrites text an earlier step inserted: base name `{Color}` with pattern `{BaseName}` and Color >= 0 gives dec(Color) |
| `NameFormater.EarlierStepDoesNotSeeLaterValue` | Source/VOX4UEditor/Private/NameFormater.cpp:73-76 | no step runs twice: a Description of `{BaseName}` with pattern `{Description}` stays `{BaseName}` |
| `NameFormater.AnyCasePlaceholder` | Source/VOX4UEditor/Private/NameFormater.cpp:73 | the search ignores case: for a base name holding no brace, `{basename}` is replaced by the base name |
| `NameFormater.BaseNameAlone` | Source/VOX4UEditor/Private/NameFormater.cpp:73 | the pattern `{BaseName}` yields the base name itself when the base name holds no placeholder |
| `NameFormater.GetPattern` | Source/VOX4UEditor/Private/NameFormater.cpp:34-66 | the pattern of row `TypeStr ++ ConvStr`; `{BaseName}` when the table is missing or the row is not found |
| `NameFormater.RowNamesDistinct` | Source/VOX4UEditor/Private/NameFormater.cpp:41-57 | the ten (type, convention) pairs give ten row names that differ even ignoring case, so each pair reads its own row |
| `NameFormater.GetFormatedName` | Source/VOX4UEditor/Private/NameFormater.cpp:12-15 | the name is the row's pattern, filled in by the sixteen steps |
| `NameFormater.FallbackName` | Source/VOX4UEditor/Private/NameFormater.cpp:36-62 | without the table or the row, the name equals the base name exactly, provided the base name holds no placeholder |
| `Vox.DistinctBound` | Source/VOX4UEditor/Private/VoxelFactory.cpp:460 | a list of distinct palette indices has at most 256 entries, so the slot stored as `uint8` is never truncated |
| `VoxelFactory.IndexOf` | Source/VOX4UEditor/Private/VoxelFactory.cpp:460 | `IndexOfByKey`: -1 exactly when the colour is absent, otherwise the first position holding it |
| `VoxelFactory.RemapSlots` | Source/VOX4UEditor/Private/VoxelFactory.cpp:456-462 | with distinct colours that cover the cells, the remapped cells have exactly the model's keys, and each holds a valid slot whose colour is the cell's own |
| `VoxelFactory.MergedDomain` | Source/VOX4UEditor/Private/VoxelFactory.cpp:466-473 | a place is occupied in the merged asset exactly when some model occupies it |
| `VoxelFactory.MergedLastWins` | Source/VOX4UEditor/Private/VoxelFactory.cpp:466-473 | a place occupied by several models takes the colour of the last of them (`TMap::Add` overwrites) |
| `VoxelFactory.MergedCovered` | Source/VOX4UEditor/Private/VoxelFactory.cpp:466-473 | colours that cover every model cover the merged cells, so the `check` holds in merged mode |
| `VoxelFactory.CellsShowTheirColour` | Source/VOX4UEditor/Private/VoxelFactory.cpp:388-477 | in a voxel asset, the cells are the model's (or all models'), every cell indexes one of `Meshes`, and that mesh is the single-cell mesh of the cell's own colour: its name, material slots and texel |
| `VoxelFactory.VoxelPaletteValid` | Source/VOX4UEditor/Private/VoxelFactory.cpp:515-527 | the palette each voxel asset receives is distinct and covers its cells, so the `check` of CreateVoxel holds |
| `VoxelFactory.ParameterTable` | Source/VOX4UEditor/Private/VoxelFactory.cpp:759-789 | a parameter is written iff: Roughness always; Color when the texture is not sampled; Opacity for GLASS; Metallic for METAL; EmissionPower and Emission for EMIT; EmissionColor for EMIT when the texture is not sampled |
| `VoxelFactory.ParametersOnce` | Source/VOX4UEditor/Private/VoxelFactory.cpp:759-789 | no parameter is written twice for one instance |
| `VoxelFactory.ParameterValues` | Source/VOX4UEditor/Private/VoxelFactory.cpp:759-789 | the values written: the material's roughness, metallic, flux and emit, opacity 1 - transparency, and the palette colour |
| `VoxelFactory.KindValues` | Source/VOX4UEditor/Private/VoxelFactory.cpp:768-789 | the type-specific values: opacity 1 - transparency for GLASS, metallic for METAL, flux, emit and (without the texture) the palette colour as emission colour for EMIT |
| `VoxelFactory.SetOverrides` | Source/VOX4UEditor/Private/VoxelFactory.cpp:759-789 | the setter calls produce exactly the decision table's parameter list, and the instance is translucent iff the type is GLASS |
| `VoxelFactory.PaletteFound` | Source/VOX4UEditor/Private/VoxelFactory.cpp:317-335 | every colour GenerateMaterials made an instance for is found again by LoadObject, so a mesh gets one instance slot per colour |
| `VoxelFactory.RegisteredAt` | Source/VOX4UEditor/Private/VoxelFactory.cpp:742-795 | a path saved only once during GenerateMaterials holds the instance saved there |
| `VoxelFactory.SlotsHoldOwnInstance` | Source/VOX4UEditor/Private/VoxelFactory.cpp:317-335 | when no two unique colours share an instance path, the slot of each palette colour holds exactly the instance GenerateMaterials made for that colour |
| `VoxelFactory.MaterialsAgree` | Source/VOX4UEditor/Private/VoxelFactory.cpp:559-664 | the shared material and the base material have the same name; the base material samples the palette texture iff the instances get no colour override, and then the shared material samples the same texture |
| `VoxelFactory.SampledCellsOnOwnTexel` | Source/VOX4UEditor/Private/VoxelFactory.cpp:435-441 | a single-cell mesh whose material samples the palette texture has its texture coordinates on its own colour's texel |
| `VoxelFactory.UVoxelFactory.CreateMaterial` | Source/VOX4UEditor/Private/VoxelFactory.cpp:559-606 | the shared material is named from the Material pattern, and its base colour samples the palette texture iff that texture could be made |
| `VoxelFactory.UVoxelFactory.CreateBaseMaterial` | Source/VOX4UEditor/Private/VoxelFactory.cpp:620-664 | `textureNotSampled` holds iff palette-to-texture is off, or it is on and no texture expression was created |
| `VoxelFactory.UVoxelFactory.CreateInstance` | Source/VOX4UEditor/Private/VoxelFactory.cpp:744-791 | the instance for a colour: named with the colour set, no model id and an empty description, parented to the base material, with the decision table's overrides |
| `VoxelFactory.UVoxelFactory.SaveInstances` | Source/VOX4UEditor/Private/VoxelFactory.cpp:742-795 | one new instance per colour, in order, each saved at its path in the resources folder |
| `VoxelFactory.UVoxelFactory.SaveNext` | Source/VOX4UEditor/Private/VoxelFactory.cpp:744-794 | one iteration of the instance loop: the next colour's new instance, distinct from the earlier ones, made for it and saved at its path, while everything saved before stays as it was |
| `VoxelFactory.SavedSnoc` | Source/VOX4UEditor/Private/VoxelFactory.cpp:742-795 | saving one more instance made for the next colour, at its path, extends what the loop has done by exactly that colour |
| `VoxelFactory.UVoxelFactory.GenerateMaterials` | Source/VOX4UEditor/Private/VoxelFactory.cpp:608-796 | `OutPalette` is the file's unique colours; exactly one instance is made per entry, in order, all distinct and all saved |
| `VoxelFactory.UVoxelFactory.CreateStaticMesh` | Source/VOX4UEditor/Private/VoxelFactory.cpp:220-251 | a new empty static mesh, named with the model id only when models are kept separate |
| `VoxelFactory.UVoxelFactory.AddInstanceSlots` | Source/VOX4UEditor/Private/VoxelFactory.cpp:317-335 | one material slot per colour whose instance LoadObject finds, in palette order; missing ones are skipped |
| `VoxelFactory.UVoxelFactory.FillStaticMesh` | Source/VOX4UEditor/Private/VoxelFactory.cpp:283-342 | a mesh gets the shared material, or the instances of its model's colours (separate) or of the generated palette (merged), and is built from its model |
| `VoxelFactory.UVoxelFactory.CreateEmptyMeshes` | Source/VOX4UEditor/Private/VoxelFactory.cpp:271-281 | one new, distinct, empty static mesh per model, named for it |
| `VoxelFactory.UVoxelFactory.FillStaticMeshes` | Source/VOX4UEditor/Private/VoxelFactory.cpp:283-344 | every mesh of the list is filled as `MeshFilled` says for its position |
| `VoxelFactory.UVoxelFactory.BuildStaticMeshes` | Source/VOX4UEditor/Private/VoxelFactory.cpp:271-344 | one new, distinct static mesh per model (or one in all), each filled as `MeshFilled` says for its position |
| `VoxelFactory.UVoxelFactory.MeshMaterials` | Source/VOX4UEditor/Private/VoxelFactory.cpp:256-269 | the shared material in one-material mode; otherwise, when materials are imported, the instances GenerateMaterials saved and the file's unique colours as palette; the registry is unchanged unless instances are generated |
| `VoxelFactory.UVoxelFactory.CreateStaticMeshes` | Source/VOX4UEditor/Private/VoxelFactory.cpp:253-345 | one static mesh per model in model order when models are separate, otherwise exactly one for model 0; each filled as `MeshFilled` says; the registry is unchanged unless instances are generated, and then holds exactly what GenerateMaterials saved (`InstancesSaved`) |
| `VoxelFactory.UVoxelFactory.CreateUVoxel` | Source/VOX4UEditor/Private/VoxelFactory.cpp:347-386 | the voxel asset's Size is `Sizes[ModelId]` in separate mode and the biggest size otherwise |
| `VoxelFactory.UVoxelFactory.CreateCellMesh` | Source/VOX4UEditor/Private/VoxelFactory.cpp:391-452 | the single-cell mesh for a colour: named with the colour and, if separate, the model id; shared material or the colour's instance; built from one cell whose texture coordinates point at the colour's texel exactly when materials are imported with the palette texture or one material (`CellTexel`) |
| `VoxelFactory.UVoxelFactory.AddCellMeshes` | Source/VOX4UEditor/Private/VoxelFactory.cpp:391-453 | `Meshes` receives exactly one mesh per palette entry, in palette order |
| `VoxelFactory.UVoxelFactory.AddCells` | Source/VOX4UEditor/Private/VoxelFactory.cpp:458-462 | the cell loop adds each cell with the slot of its colour, overwriting cells already present |
| `VoxelFactory.UVoxelFactory.AddMergedCells` | Source/VOX4UEditor/Private/VoxelFactory.cpp:466-473 | the cells of all models are added in model order, giving the remapped merged cells |
| `VoxelFactory.UVoxelFactory.AddVoxelCells` | Source/VOX4UEditor/Private/VoxelFactory.cpp:456-474 | the voxel asset's cells are its model's (or every model's, merged) remapped to palette slots; its name, size, flag and meshes are untouched |
| `VoxelFactory.UVoxelFactory.CreateVoxel` | Source/VOX4UEditor/Private/VoxelFactory.cpp:388-477 | the voxel asset holds its name, its size, one cell mesh per palette colour, and the cells of its model (or of all models) remapped to palette slots |
| `VoxelFactory.UVoxelFactory.VoxelMaterials` | Source/VOX4UEditor/Private/VoxelFactory.cpp:481-506 | the shared material when there is one; the merged asset's palette is the file's unique colours in every material mode; the registry is unchanged unless instances are generated, and then holds exactly what GenerateMaterials saved |
| `VoxelFactory.UVoxelFactory.CreateModelVoxels` | Source/VOX4UEditor/Private/VoxelFactory.cpp:515-523 | in separate mode, one new voxel asset per model, in model order, all distinct, each with that model's colours |
| `VoxelFactory.UVoxelFactory.CreateNextModelVoxel` | Source/VOX4UEditor/Private/VoxelFactory.cpp:517-522 | one iteration of the per-model loop: the next model's new voxel asset, distinct from the earlier ones and made from that model's colours |
| `VoxelFactory.ModelVoxelsSnoc` | Source/VOX4UEditor/Private/VoxelFactory.cpp:515-523 | one more voxel asset, distinct and made for the next model, extends what the per-model loop has done by exactly that model |
| `VoxelFactory.UVoxelFactory.CreateVoxelAssets` | Source/VOX4UEditor/Private/VoxelFactory.cpp:515-534 | one distinct asset per model in separate mode, else one for model 0 with the unique colours; each as `VoxelMade` says, with the XY-centre flag of the options |
| `VoxelFactory.UVoxelFactory.SetXYCenter` | Source/VOX4UEditor/Private/VoxelFactory.cpp:529-534 | every voxel asset gets the XY-centre flag of the options, and nothing else about it changes |
| `VoxelFactory.UVoxelFactory.CreateVoxels` | Source/VOX4UEditor/Private/VoxelFactory.cpp:479-536 | one asset per model in separate mode, else exactly one for model 0, all distinct; each as `VoxelMade` says, with the XY-centre flag set; the registry is unchanged unless instances are generated, and then holds exactly what GenerateMaterials saved |

## Left out

- The `.vox` parser (`FVox::Import`), the greedy mesher (`CreateOptimizedRawMesh`), `CreateVoxelRawMesh`, `CreatePaletteTexture`, `GetUniqueColors` and `GetBiggestSize`. `Vox.h` only declares them, and `Vox.cpp` is not part of this model. Their results are inputs. A mesh records which raw mesh it was built from (`ModelMesh` or `CellMesh`); a single-cell mesh also records whose palette texel its texture coordinates were moved to, if any.
- Packages, `NewObject` flags, asset-import data, `MarkPackageDirty`, asset-registry notifications and the import-subsystem broadcasts of `FactoryCreateBinary`. These are engine plumbing. The dispatch in `FactoryCreateBinary` on the import type, the custom asset name, and `CanReimport`/`Reimport`/`SetReimportPaths` are left out for the same reason: they drive the file manager and the engine's import machinery.
- The material expression graph and its editor node positions in `CreateMaterial` and `GenerateMaterials`. A material is modelled only by its name and by whether its base colour samples the palette texture.
- Floating-point work: the build scale of `BuildStaticMesh`, the value `(color + 0.5) / 256` of the moved texture coordinates (the model keeps the colour they are computed from), `FLinearColor::FromSRGBColor`, the collision box and `UVoxel::CalcCellBounds`. Vector parameters carry the sRGB palette colour they are converted from. Material scalars are reals.
- `NameFormater::GetNamingTable`: its lazy static cache and DataTable load are replaced by an optional map.
- `LoadObject` of a material instance is modelled as a lookup in `AssetRegistry`. That registry holds the instances present before the import and those `GenerateMaterials` saved.
- `VoxelFactory.UVoxelFactory.CreateVoxel`: the source's `check` that every cell's colour is in the palette is a precondition (`PaletteCovers`). `VoxelPaletteValid` shows that the callers in `CreateVoxels` always meet it.
- `VoxImportOption.h` declares no `bSeparateModels`, `bPaletteToTexture`, `ResourcesSaveLocation` or `AssetsNamingConvention`, although `VoxelFactory.cpp` reads them. The model follows the code and takes them as fields of `ImportOption`.
- `Voxel.cpp` names the members `Mesh` and `Voxel`, but `Voxel.h:33,36` declares them as `Meshes` and `Voxels`. The model follows the header and the factory, which use `Meshes` and `Voxels`.
- `VoxelFactory.h:51` declares `CreateVoxel` with five parameters and does not declare `CreateUVoxel`, while `VoxelFactory.cpp:347` and `:388` define both, `CreateVoxel` with eight parameters. The model follows the `.cpp`.
- `JoinPath` always puts one `/` between folder and name. FString's `/` operator leaves it out when the left side is empty or ends in `/`, or the right side starts with `/`. Saving and looking up an instance use the same join, so no contract depends on the difference.
- TMap iteration order inside one model is not modelled. A model's cells have distinct keys, so the order of adding them does not change the result.
- `NameFormater.FormatPieces`, `NameFormater.UnsetVanishes`, `NameFormater.SetPlaceholder`, `NameFormater.NumberPlaceholder`, `NameFormater.RunPieces`, `NameFormater.SplitAround`, `NameFormater.AllUnsetVanish`, `NameFormater.FormatIsolated`, `NameFormater.RunIsolated`, `NameFormater.UnsetModelIdExample`, `NameFormater.ColorSuffixExample`, `NameFormater.InstancePatternExample`, `NameFormater.EmptyDescriptionExample`, `NameFormater.AnyCasePlaceholder`: the text between placeholders and the expansions must hold no `{` (for the examples: the texts a and b, or the base name). With a brace, a step can build a placeholder out of inserted text and later text; `LaterStepRewritesEarlierValue` and `EarlierStepDoesNotSeeLaterValue` show such cases on the full definition, which `ApplyPattern` is proved equal to for every input.
