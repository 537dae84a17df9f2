# Blender sprite batch renderer — a Dafny model of its core

The renderer turns a tree of 3D models into 2D sprites. It runs as a script inside Blender. For each model it:

- clears the previous geometry and imports the file;
- folds the world-space corners of every mesh into a bounding box;
- aims an orthographic camera at the box centre from a configured pitch and yaw;
- sizes a square canvas from a fixed orthographic extent and pixel density, rounded up to a power of two and clamped;
- renders once, or four times (South, East, North, West) by overwriting and then restoring the configured yaw;
- optionally crops each sprite to its visible pixels, recording the offset needed to put it back;
- writes a JSON sidecar next to each image.

A companion inspector prints the bounding-box size of each model given on its command line, and the average of the largest dimensions.

The model has these modules:

- `Geometry` (geometry.dfy): the bounds fold, as a specification function and as the imperative six-variable min/max loop.
- `Canvas` (canvas.dfy): power-of-two canvas sizing and Python's `int()`.
- `Paths` (paths.dfy): `PurePath` suffix rules, `str.replace`, path ordering and model discovery.
- `Crop` (crop.dfy): Pillow's `getbbox` on the alpha channel, crop, and the crop metadata.
- `Importer` (importer.dfy): extension dispatch to an importer.
- `Batch` (batch.dfy):
  - the `RenderConfig` and `Scene` classes, whose fields the code updates in place;
  - framing (`CalculateCanvasAndPosition`);
  - the batch loop as methods, each proved equal to a value-level specification (`StepAsset`, `Run`, `BatchOutcome`).
- `BatchFacts` (batch_facts.dfy): what the batch loop guarantees, proved about those specifications.
- `Inspect` (inspect.dfy): the size inspector.

Blender, Pillow, the file system and the renderer are parameters:

- Imported objects arrive as `ImportOutcome` values.
- Render results arrive as `RenderOutcome` values. They say whether the file was written, which image it holds, and whether Pillow could open and save it.
- The files on disk are a `set<string>`.
- Model discovery gets the list of files under the input directory, as paths relative to it.

Three details of the code that the model keeps as written:

- Discovery uses `rglob("*" + fmt)`, which is case-sensitive on POSIX: `tree.OBJ` is not found for the format `.obj`.
- In four-direction mode the yaw is set to the absolute angles 0/90/180/270, whatever the configured yaw; the configured yaw is restored afterwards.
- The required pixel count is `int(ortho_scale * pixels_per_unit)`, which truncates toward zero.

## Model

| member | source | states |
|---|---|---|
| Geometry.BoundsOf | blender_batch_render.py:260-276 | The folded box exists exactly when there is at least one corner, and it holds every corner |
| Geometry.BoundsOfSmallest | blender_batch_render.py:260-276 | Any box holding every corner encloses the folded box, so the fold gives the smallest bounding box |
| Geometry.MeshCornersCount | blender_batch_render.py:264-268 | Each mesh contributes its eight bounding-box corners; no other object type contributes any |
| Geometry.FoldCorners | blender_batch_render.py:268-276 | The six running minima and maxima, starting from plus and minus infinity, always equal the bounds of the corners seen so far |
| Geometry.FoldMeshBounds | blender_batch_render.py:260-280 | The loop counts exactly the meshes and yields exactly the bounds of their corners; bounds exist exactly when the mesh count is non-zero |
| Geometry.BoundsFraming | blender_batch_render.py:282-290 | For at least one corner, width, height and depth are non-negative and the centre is half a dimension from each face |
| Canvas.TruncToInt | blender_batch_render.py:334 | `int()` truncates toward zero for both signs |
| Canvas.NextPow2 | blender_batch_render.py:335 | `2 ** ceil(log2(n))` is a power of two with n <= r < 2n |
| Canvas.NextPow2Least | blender_batch_render.py:335 | It is the least power of two that is at least n |
| Canvas.Clamp | blender_batch_render.py:336 | No contract of its own: `max(lo, min(size, hi))`; `Canvas.CanvasSize` states its cases |
| Canvas.CanvasSize | blender_batch_render.py:334-336 | The canvas is at least the minimum, at most the maximum when min <= max, and a power of two when both bounds are. It is exactly the maximum when the next power of two exceeds it, and exactly the minimum when the bounds are inverted |
| Canvas.CanvasSizeLeast | blender_batch_render.py:334-336 | The canvas is no larger than any power of two covering both the required pixels and the minimum, and it is exactly the next power of two when that lies within the bounds |
| Canvas.DefaultCanvasExamples | blender_batch_render.py:334-336 | 1024 required pixels between 256 and 1024 give 1024; 100 required pixels give the minimum 256 |
| Paths.LastIndex | blender_batch_render.py:224 | The index found holds the character, and no later index does (the rule behind `PurePath.suffix`) |
| Paths.SuffixOfWithSuffix | blender_batch_render.py:511 | `with_suffix` followed by `suffix` gives back the new suffix and keeps the stem |
| Paths.PathWithSuffix | blender_batch_render.py:511 | `rel_path.with_suffix('.png')` changes only the final component, into its stem plus ".png" |
| Paths.PngPathEndsWithPng | blender_batch_render.py:511 | The output path prints as a string ending in ".png" |
| Paths.Trimmed | inspect_model_sizes.py:19-25 | `PurePath` drops trailing "/" and trailing "." components: the result is a prefix of the text, only such characters are dropped, and it ends in neither |
| Paths.TrimmedEndsAtSeparator | inspect_model_sizes.py:19-25 | Only whole components are dropped: a non-empty trimmed path is followed by a "/" in the original |
| Paths.TrimmedKeepsNames | inspect_model_sizes.py:19-25 | Every dropped "." is a component on its own, between separators or at the ends, so a "." inside a name is kept |
| Paths.TrimmedExamples | inspect_model_sizes.py:19-25 | "x." and "a/.." are kept as they are |
| Paths.NameOf | inspect_model_sizes.py:19-25 | `Path(filepath).name` has no separator in it |
| Paths.NameOfIsLastComponent | inspect_model_sizes.py:19-25 | The name ends the trimmed path and is preceded there by a "/" unless it is the whole trimmed path, so it is the last component |
| Paths.NameOfPlain | inspect_model_sizes.py:19-25 | The name of "a/b" is "b" and the name of "/" is empty |
| Paths.NameOfTrailing | inspect_model_sizes.py:19-25 | For any path, appending "/" or "/." does not change its name |
| Paths.Suffix | blender_batch_render.py:224 | No contract of its own: `PurePath.suffix` from the last dot; `Paths.SuffixOfWithSuffix` and `Importer.ImportModelSpec` state what it gives |
| Paths.WithSuffix | blender_batch_render.py:511 | No contract of its own: stem plus new suffix; `Paths.SuffixOfWithSuffix` and `Paths.PathWithSuffix` state its properties |
| Paths.ReplaceAll | blender_batch_render.py:373 | No contract of its own: `str.replace` of every non-overlapping occurrence, left to right; `Paths.ReplaceAtEnd`, `Paths.ReplaceNoShorter` and `Paths.ReplaceGrows` state its properties |
| Paths.RotatedPath | blender_batch_render.py:571 | No contract of its own: the suffix inserted before every ".png"; `Paths.SidecarPaths`, `Paths.RotatedDiffers` and `BatchFacts.RotationsDistinct` state its properties |
| Paths.MetadataPath | blender_batch_render.py:373 | No contract of its own: every ".png" replaced by ".json"; `Paths.SidecarPaths` states its value for a rotated path |
| Paths.Lower | blender_batch_render.py:224 | `str.lower` maps each character and keeps the length |
| Paths.ReplaceAtEnd | blender_batch_render.py:373 | When ".png" occurs only at the end, `replace` swaps exactly that last occurrence |
| Paths.ReplaceNoShorter | blender_batch_render.py:571 | Replacing by a text at least as long never shortens the string |
| Paths.ReplaceGrows | blender_batch_render.py:571 | With an occurrence and a longer replacement, `replace` strictly lengthens the string |
| Paths.SuffixedOnlyAtEnd | blender_batch_render.py:571 | Inserting a direction suffix before ".png" creates no new ".png" |
| Paths.SidecarPaths | blender_batch_render.py:373 | The rotated image is stem + suffix + ".png" and its metadata file is stem + suffix + ".json" |
| Paths.RotatedDiffers | blender_batch_render.py:571 | A rotated image path never equals the output path it came from |
| Paths.StrLeTotal | blender_batch_render.py:476 | String comparison is total |
| Paths.StrLeAntisymmetric | blender_batch_render.py:476 | String comparison is antisymmetric |
| Paths.StrLeTransitive | blender_batch_render.py:476 | String comparison is transitive |
| Paths.PathLeTotal | blender_batch_render.py:476 | Comparing paths part by part is total |
| Paths.PathLeTransitive | blender_batch_render.py:476 | Comparing paths part by part is transitive |
| Paths.Insert | blender_batch_render.py:476 | Inserting one path adds exactly that path to the multiset |
| Paths.InsertSorted | blender_batch_render.py:476 | Inserting into a sorted list keeps it sorted |
| Paths.SortPaths | blender_batch_render.py:476 | `sorted` is a permutation of its input |
| Paths.SortPathsSorted | blender_batch_render.py:476 | `sorted` yields an ordered list |
| Paths.Matches | blender_batch_render.py:474 | `rglob("*" + fmt)` keeps exactly the entries whose name ends with fmt |
| Paths.DiscoveredMembers | blender_batch_render.py:472-474 | The extended list holds exactly the entries matching some format |
| Paths.FoundModels | blender_batch_render.py:468-476 | Every discovered model path is non-empty |
| Paths.FoundModelsSpec | blender_batch_render.py:468-476 | `find_models` is sorted, is a permutation of the per-format matches, and holds exactly the entries whose name ends with one of the formats |
| Paths.FindModels | blender_batch_render.py:468-476 | The loop over the formats followed by the sort yields exactly the found models |
| Crop.RowVisible | blender_batch_render.py:406 | Exactly the pixels of the row with non-zero alpha |
| Crop.VisiblePixels | blender_batch_render.py:406 | Exactly the pixels of the image with non-zero alpha |
| Crop.BoxOf | blender_batch_render.py:406 | A box exists exactly when there are pixels, and it covers each of them |
| Crop.BoxOfSmallest | blender_batch_render.py:406 | Any box covering all the pixels encloses it |
| Crop.NoPixelsIffTransparent | blender_batch_render.py:406-428 | There are no visible pixels exactly when the image is fully transparent |
| Crop.BoxInsideImage | blender_batch_render.py:406 | The box of the visible pixels lies inside the image and is non-empty |
| Crop.GetBBoxSpec | blender_batch_render.py:406-408 | `getbbox` is None exactly for a fully transparent image; otherwise its box lies inside the image and covers every visible pixel |
| Crop.GetBBox | blender_batch_render.py:406 | No contract of its own: the box of the visible pixels; `Crop.GetBBoxSpec` and `Crop.GetBBoxSmallest` state its properties |
| Crop.GetBBoxSmallest | blender_batch_render.py:406 | Any box covering every visible pixel encloses `getbbox`'s box |
| Crop.CropImage | blender_batch_render.py:410 | The crop has the box's size, and each of its pixels is the original pixel shifted by the box's corner |
| Crop.AutoCropSprite | blender_batch_render.py:390-432 | The crop dict is empty exactly when Pillow is missing, the image cannot be opened or saved, or nothing is visible, and the image is then untouched. Otherwise it records the original size, an offset and a non-empty size that fit inside it, and the saved image has that size; `Crop.CropFollowsGetBBox` ties offset, size and image to `getbbox` |
| Crop.CropFollowsGetBBox | blender_batch_render.py:406-428 | When the crop keys are returned, `crop_offset` and `cropped_size` are exactly `getbbox`'s box, and the saved image is the original cropped to it |
| Crop.CropIsTight | blender_batch_render.py:406-428 | The recorded crop covers every visible pixel and lies inside any box that does |
| Crop.ReAnchor | blender_batch_render.py:410-424 | Pasting the cropped sprite at `crop_offset` on a canvas of `original_size` gives back the original image exactly |
| Importer.ImportModel | blender_batch_render.py:222-251 | No contract of its own: extension dispatch; `Importer.ImportModelSpec` and `Importer.ImportIgnoresCase` state its properties |
| Importer.ImportModelSpec | blender_batch_render.py:222-251 | An import succeeds exactly when the lower-cased extension is .gltf, .glb, .obj or .fbx and the importer does not raise; it then yields what the importer loaded |
| Importer.LowerObj | blender_batch_render.py:224 | ".OBJ" and ".obj" both lower-case to ".obj" |
| Importer.ImportIgnoresCase | blender_batch_render.py:224 | A name ending ".OBJ" imports exactly like the same name ending ".obj" |
| Batch.RenderConfig.constructor | blender_batch_render.py:49-82 | A new configuration holds the documented defaults, with auto-crop on exactly when Pillow is available |
| Batch.RequiredPixels | blender_batch_render.py:334 | No contract of its own: `int(ortho_scale * pixels_per_unit)`; `Canvas.TruncToInt` states the truncation |
| Batch.CanvasFor | blender_batch_render.py:333-336 | No contract of its own: `CanvasSize` of the required pixels and the configured bounds; `Canvas.CanvasSize` and `Canvas.CanvasSizeLeast` state its properties |
| Batch.DefaultCanvas | blender_batch_render.py:61-64 | The defaults need 1024 pixels and give a 1024 canvas |
| Batch.WithoutGeometry | blender_batch_render.py:521-527 | Deleting selected objects leaves exactly the objects that are neither meshes nor empties |
| Batch.Scene.SetUp | blender_batch_render.py:493-496 | After setup the scene holds only the new camera and light, at the configured resolution and initial pitch and yaw |
| Batch.Scene.ClearGeometry | blender_batch_render.py:521-527 | Only the object list changes, to its non-mesh, non-empty objects |
| Batch.Scene.AddObjects | blender_batch_render.py:226-232 | Only the object list changes: the imported objects are appended |
| Batch.Frame | blender_batch_render.py:254-362 | No contract of its own: framing on values; `Batch.FrameSpec` states it and `Batch.CalculateCanvasAndPosition` is proved equal to it |
| Batch.FrameSpec | blender_batch_render.py:254-362 | With no mesh: the minimum canvas, no metadata and an unchanged scene. With meshes: a fixed canvas (also the scene resolution), the configured ortho_scale and pixels_per_unit, centre and dimensions equal to those of the mesh bounds (non-negative, holding every mesh corner), and a camera looking at that centre |
| Batch.FramedBox | blender_batch_render.py:283-290 | No contract of its own: the box centre ± half of each dimension; `Batch.FrameTight` states it |
| Batch.FrameTight | blender_batch_render.py:254-362 | The framing box holds every mesh corner and lies inside every box that does, so it is the smallest box around the meshes, and the camera looks at its centre |
| Batch.CalculateCanvasAndPosition | blender_batch_render.py:254-362 | The method's returned canvas and metadata, and the scene it leaves, are exactly `Frame` of the configuration and the previous scene |
| Batch.OutputFile | blender_batch_render.py:509-511 | No contract of its own: `output_path / rel_path.with_suffix('.png')`; `BatchFacts.OutputFileIsPng` and `Paths.PathWithSuffix` state it |
| Batch.RotationFailure | blender_batch_render.py:576 | No contract of its own: `f"{rel_path} ({direction})"`; `BatchFacts.FailedEntries` and `BatchFacts.RotationStepCount` use it |
| Batch.Merge | blender_batch_render.py:580-582 | No contract of its own: `metadata.update(crop_meta)`, where an empty dict adds nothing; `Batch.RenderAndExport` states its effect on the export |
| Batch.RotationStep | blender_batch_render.py:550-587 | No contract of its own: one rotation on values; `BatchFacts.RotationStepLabel`, `BatchFacts.RotationStepCamera`, `BatchFacts.RotationStepCount`, `BatchFacts.RotationStepKeeps` and `BatchFacts.RotationStepFiles` state it, and `Batch.RenderRotation` is proved equal to it |
| Batch.Rotations | blender_batch_render.py:547-592 | No contract of its own: the first n rotations; `BatchFacts.RotationsCount`, `BatchFacts.RotationsKeep` and `BatchFacts.RotationsFiles` state it, and `Batch.RotationLoop` is proved equal to it |
| Batch.SingleRender | blender_batch_render.py:594-616 | No contract of its own: `BatchFacts.SingleRenderKeeps` and `BatchFacts.SingleRenderCamera` state it, and `Batch.RenderSingle` is proved equal to it |
| Batch.FourWay | blender_batch_render.py:539-593 | No contract of its own: `BatchFacts.FourRotationModel` and `BatchFacts.FourWayKeepsOutput` state it, and `Batch.RenderFourWays` is proved equal to it |
| Batch.RenderModel | blender_batch_render.py:537-616 | No contract of its own: the choice between `FourWay` and `SingleRender` on `rotations == 4`; `Batch.RenderImported` is proved equal to it |
| Batch.StepAsset | blender_batch_render.py:508-616 | No contract of its own: one model; `BatchFacts.SingleRenderModel`, `BatchFacts.FourRotationModel`, `BatchFacts.ImportFailure` and `BatchFacts.StepAssetSpec` state it, and `Batch.ProcessAsset` is proved equal to it |
| Batch.Run | blender_batch_render.py:508-616 | No contract of its own: the models in order; `BatchFacts.RunSpec` and `BatchFacts.RerunSkipsAll` state it, and `Batch.ProcessModels` is proved equal to it |
| Batch.BatchOutcome | blender_batch_render.py:479-616 | No contract of its own: discovery then the run; `BatchFacts.BatchSpec` states it and `Batch.ProcessBatch` is proved equal to it |
| Batch.RenderAndExport | blender_batch_render.py:573-587 | Succeeds exactly when the render does; then the image exists and one export is appended, its crop merged into the metadata only when auto-crop returned crop keys |
| Batch.RenderRotation | blender_batch_render.py:550-587 | One rotation sets only the yaw, to the table's angle, then frames, renders and counts as `RotationStep` |
| Batch.RotationPass | blender_batch_render.py:550-587 | After the first k passes, pass k leaves the state of the first k + 1 rotations and changes only the yaw in the configuration |
| Batch.RotationLoop | blender_batch_render.py:549-587 | The loop over the table ends in the state `Rotations` gives for all four directions |
| Batch.RenderRotations | blender_batch_render.py:545-589 | Four-direction rendering ends as `Rotations` says, and the configuration, yaw included, is as before |
| Batch.RenderSingle | blender_batch_render.py:594-616 | The single render ends as `SingleRender`: labelled 0 degrees/South, processed on success, one failure entry otherwise |
| Batch.RenderFourWays | blender_batch_render.py:539-593 | The four-direction branch ends as `FourWay`: the four rotations, then processed raised by one only when every direction rendered; the configuration is as before |
| Batch.RenderImported | blender_batch_render.py:537-616 | Rendering an imported model ends as `RenderModel`, and the configuration is unchanged |
| Batch.ProcessAsset | blender_batch_render.py:508-616 | One iteration of the model loop ends as `StepAsset`, and the configuration is unchanged |
| Batch.ProcessModels | blender_batch_render.py:508-616 | The model loop ends as `Run` over the models in order |
| Batch.ProcessBatch | blender_batch_render.py:479-616 | With no model nothing changes and the counters are zero; otherwise the statistics, scene and output are those of `BatchOutcome` |
| BatchFacts.DeliveredKeeps | blender_batch_render.py:578-587 | A delivered render puts its image on disk, appends one well-formed export, and only extends the state |
| BatchFacts.CanvasIgnoresYaw | blender_batch_render.py:556-562 | Overwriting the yaw does not change the canvas size |
| BatchFacts.RotationStepLabel | blender_batch_render.py:550-587 | A successful rotation appends one export: image at the output path with the direction suffix, metadata beside it, labelled with the table's angle and direction. A failed one writes nothing |
| BatchFacts.RotationStepCamera | blender_batch_render.py:550-568 | With a mesh, rotation k's camera looks at the centre of the mesh bounds from the configured pitch and the table's absolute yaw, and the exported framing is centred there; without one the scene is unchanged |
| BatchFacts.RotationStepCount | blender_batch_render.py:550-587 | One rotation adds one export when its render succeeds and one failure, `f"{rel_path} ({direction})"`, otherwise; the loop's success flag stays true only while every render succeeds |
| BatchFacts.FailedEntries | blender_batch_render.py:573-577 | The failure entries of the first n rotations: one per failed render, each naming the model and one of the first n directions |
| BatchFacts.RotationsCount | blender_batch_render.py:547-592 | Four-direction rendering leaves processed and skipped unchanged, adds one failure per failed render and appends exactly `FailedEntries` to failed_files. Success means no render failed, and each successful render adds one export |
| BatchFacts.RotationStepKeeps | blender_batch_render.py:550-587 | One rotation keeps failed equal to the length of failed_files, keeps every export well formed, and only extends the state |
| BatchFacts.RotationsKeep | blender_batch_render.py:549-587 | So do all four rotations |
| BatchFacts.FourRotationModel | blender_batch_render.py:536-593 | A model neither skipped nor failing to import counts as processed exactly when all four renders succeed, and adds one failure per failed direction, appending exactly those directions' entries to failed_files |
| BatchFacts.RotationsFiles | blender_batch_render.py:571-587 | The rotations create no file other than their four rotated paths |
| BatchFacts.RotationStepFiles | blender_batch_render.py:571-587 | One rotation puts on disk only its own rotated path, and only when that render succeeds |
| BatchFacts.FourWayKeepsOutput | blender_batch_render.py:539-593 | The four renders leave an unsuffixed ".png" path on disk exactly as it was |
| BatchFacts.OutputFileIsPng | blender_batch_render.py:511 | Every output file path ends in ".png" |
| BatchFacts.FourRotationSkipTarget | blender_batch_render.py:516-589 | In four-direction mode, processing a model never creates the output file that its own skip test checks |
| BatchFacts.FourRotationRerunNotSkipped | blender_batch_render.py:516-589 | So with skip_existing in four-direction mode, a model whose unsuffixed output did not exist is not skipped when it comes up again, even if all four sprites exist |
| BatchFacts.RotationSidecars | blender_batch_render.py:571-587 | Each direction's sprite is the output stem + suffix + ".png", with its metadata at stem + suffix + ".json" |
| BatchFacts.RotationsDistinct | blender_batch_render.py:539-571 | The four direction sprites of a model are four different files |
| BatchFacts.ImportFailure | blender_batch_render.py:521-533 | A failed import adds exactly one failure, the relative path, writes nothing, and leaves no mesh in the scene |
| BatchFacts.SingleRenderKeeps | blender_batch_render.py:594-616 | The single render, on success, counts the model processed and appends one export for the output file labelled 0 degrees and "South"; on failure it appends `str(rel_path)` to failed_files and writes nothing; the invariant is kept and the state only grows |
| BatchFacts.SingleRenderCamera | blender_batch_render.py:594-603 | With a mesh, the single render's camera looks at the centre of the mesh bounds from the configured pitch and yaw, and the exported framing is centred there; without one the scene is unchanged |
| BatchFacts.SingleRenderModel | blender_batch_render.py:516-616 | In single mode each model moves exactly one counter by one. It is skipped exactly when its output exists and skipping is on, when processed its output exists, and when failed `str(rel_path)` is appended to failed_files |
| BatchFacts.StepAssetSpec | blender_batch_render.py:508-616 | Each model, in either mode, raises processed+skipped+failed by one to four (by exactly one in single mode), keeps the invariant and only extends the state |
| BatchFacts.RunSpec | blender_batch_render.py:508-616 | Over n models the counter total grows by between n and 4n (exactly n in single mode), and the invariant holds throughout |
| BatchFacts.BatchSpec | blender_batch_render.py:479-616 | process_batch accounts for every found model. failed equals the length of failed_files. Every export's metadata sits beside its image on disk with a label from the rotation table and the configured canvas size, and pre-existing files remain |
| BatchFacts.RerunSkipsAll | blender_batch_render.py:516-519 | With skip_existing, models whose outputs all exist are all skipped and nothing else changes |
| Inspect.Max3 | inspect_model_sizes.py:68-75 | The maximum is at least each dimension and equal to one of them |
| Inspect.Inspected | inspect_model_sizes.py:17-76 | No contract of its own: one inspection on values; `Inspect.InspectedExists` and `Inspect.InspectedExtents` state it, and `Inspect.InspectModel` is proved equal to it |
| Inspect.InspectedExists | inspect_model_sizes.py:17-64 | A report exists exactly when the import succeeds and the model has a mesh, and it names the file by its last component |
| Inspect.InspectedExtents | inspect_model_sizes.py:40-75 | The reported extents are those of the smallest box holding every mesh corner: non-negative, realised by some box holding the corners, and no larger than any such box |
| Inspect.InspectModel | inspect_model_sizes.py:17-76 | The clear/import/fold/measure steps return exactly `Inspected` |
| Inspect.KeptLength | inspect_model_sizes.py:95-99 | Keeping the successful results of a list of paths gives at most one result per path |
| Inspect.KeptSound | inspect_model_sizes.py:95-99 | Every kept result is the result of one of the paths |
| Inspect.KeptComplete | inspect_model_sizes.py:95-99 | Every path with a result contributes it |
| Inspect.ReportsSpec | inspect_model_sizes.py:95-99 | The collected reports are exactly the successful inspections, at most one per path |
| Inspect.CollectReports | inspect_model_sizes.py:95-99 | main's collection loop yields exactly `Reports`: the successful inspections in argument order |
| Inspect.SumOfMaxima | inspect_model_sizes.py:111 | The generator sum over the reports equals `SumMax` |
| Inspect.FirstIsUnique | inspect_model_sizes.py:81-82 | Only one position can hold the first "--" |
| Inspect.FirstDashes | inspect_model_sizes.py:81-82 | `argv.index('--')` is the first position holding "--", and there is none exactly when "--" is absent |
| Inspect.InspectOutcome | inspect_model_sizes.py:78-113 | No contract of its own: main on values; `Inspect.InspectOutcomeSpec` states it and `Inspect.InspectMain` is proved equal to it |
| Inspect.InspectOutcomeSpec | inspect_model_sizes.py:78-102 | Without "--" only usage is printed, and with nothing after it only the error. Otherwise exactly the arguments after the first "--" are inspected, and an average exists exactly when a report does |
| Inspect.Average | inspect_model_sizes.py:110 | No contract of its own: the sum of the maxima over their count; `Inspect.AverageBetween` and `Inspect.InspectOutcomeSpec` state it |
| Inspect.AverageBetween | inspect_model_sizes.py:111 | The average lies between the smallest and the largest maximum, and is non-negative when they are |
| Inspect.ReportsNonNegative | inspect_model_sizes.py:62-75 | Every reported maximum is non-negative |
| Inspect.InspectMain | inspect_model_sizes.py:78-113 | main's loop and sum produce exactly `InspectOutcome`: the reports in argument order and their average |

## Left out

- Batch.ProcessBatch: requires `int(ortho_scale * pixels_per_unit) >= 1`. Below that, `math.log2` raises `ValueError` while framing the first mesh, and the exception ends the script because process_batch catches nothing. The crash itself is not modelled. The same requirement is on every batch member that frames.
- Batch.CalculateCanvasAndPosition: the camera position and orientation (trigonometry, look-at quaternion) are reduced to the pose's inputs: centre, pitch and yaw. Real numbers are exact, and `2 ** ceil(log2(n))` is modelled as the exact next power of two.
- Geometry: `obj.matrix_world @ corner` is not modelled. Bounding-box corners are given already in world space. The camera's and light's own boxes are never read and are placeholders.
- Importer.ImportModelSpec: the `scale_factor` application in `import_model` (the `transform_apply` on root objects) is not modelled. The import outcome gives the objects as they are after scaling.
- Blender, Pillow and the operating system are parameters: render success, the rendered image (its alpha channel only; colour is not modelled), Pillow's open/save success, and the files on disk. `os.makedirs`, the JSON text, and a failing metadata write are not modelled. process_batch ignores `export_metadata`'s result, so every successful render records its export.
- clear_scene's purge of orphaned meshes, materials, textures and images, the render engine, samples, colour management, and the light set-up are not modelled. They do not influence framing or the batch counters.
- setup_logging, parse_arguments, the CLI main, the config-file merge, and all log and print output are not modelled. This includes process_batch's final summary, whose counters the model returns instead.
- Paths: only `Path.relative_to` and string forms of already-normalised relative paths are modelled, so `./rendered_sprites` appears as `rendered_sprites`. Glob metacharacters inside a format are treated as literal text. `str.lower` covers ASCII letters only.
- Inspect: the inspector's scene is not modelled as state. After its clear_scene the scene holds exactly what the import loaded, and that is what is folded. The scale-factor recommendation lines (inspect_model_sizes.py:116-121) only print. They raise `ZeroDivisionError` when the average is 0, which is not modelled.
- Batch.World: the renderer is a function of the output path alone, so two renders of the same path in one run are modelled as giving the same result. Two models that differ only in extension (`tree.obj` and `tree.fbx`) share the output `tree.png` and, in four-direction mode, the same four rotated paths; the skip test does not separate them there, and the model then gives the second model's renders the outcome and image of the first.
