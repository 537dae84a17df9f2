/**
  The batch renderer's bookkeeping: the run configuration, the parts of the
  Blender scene the core reads and writes (objects, render resolution, camera
  pose), framing, the four-direction rotation table, and the batch loop with
  its counters, skip-existing check, per-asset and per-rotation failure
  isolation, crop and metadata export, and the save/restore of the camera yaw.
*/
module Batch {
  import opened Wrappers
  import opened Geometry
  import opened Canvas
  import opened Paths
  import opened Crop
  import opened Importer

  /** The run configuration as a value: one field per RenderConfig attribute. */
  datatype Settings = Settings(
    inputDir: Path, outputDir: Path,
    resolution: int, cameraAngle: real, cameraYaw: real, samples: int,
    orthoScale: real, pixelsPerUnit: real, minCanvasSize: int, maxCanvasSize: int,
    rotations: int,
    lightStrength: real, lightAngleX: real, lightAngleZ: real,
    formats: seq<string>, skipExisting: bool, autoCrop: bool, scaleFactor: real,
    verbose: bool, logFile: Option<string>)

  /** The defaults RenderConfig starts from; auto-crop is on exactly when Pillow is installed. */
  function DefaultSettings(pilAvailable: bool): Settings {
    Settings([], ["rendered_sprites"],
             512, 55.0, 0.0, 64,
             4.0, 256.0, 256, 1024,
             1,
             3.0, 45.0, 315.0,
             [".gltf", ".glb", ".obj", ".fbx"], false, pilAvailable, 1.0,
             false, None)
  }

  /** The configuration object; the batch loop overwrites and restores its camera yaw. */
  class RenderConfig {
    var inputDir: Path
    var outputDir: Path
    var resolution: int
    var cameraAngle: real
    var cameraYaw: real
    var samples: int
    var orthoScale: real
    var pixelsPerUnit: real
    var minCanvasSize: int
    var maxCanvasSize: int
    var rotations: int
    var lightStrength: real
    var lightAngleX: real
    var lightAngleZ: real
    var formats: seq<string>
    var skipExisting: bool
    var autoCrop: bool
    var scaleFactor: real
    var verbose: bool
    var logFile: Option<string>

    function Snapshot(): Settings
      reads this
    {
      Settings(inputDir, outputDir, resolution, cameraAngle, cameraYaw, samples,
               orthoScale, pixelsPerUnit, minCanvasSize, maxCanvasSize, rotations,
               lightStrength, lightAngleX, lightAngleZ,
               formats, skipExisting, autoCrop, scaleFactor, verbose, logFile)
    }

    constructor (pilAvailable: bool)
      ensures Snapshot() == DefaultSettings(pilAvailable)
    {
      inputDir, outputDir := [], ["rendered_sprites"];
      resolution, cameraAngle, cameraYaw, samples := 512, 55.0, 0.0, 64;
      orthoScale, pixelsPerUnit, minCanvasSize, maxCanvasSize := 4.0, 256.0, 256, 1024;
      rotations := 1;
      lightStrength, lightAngleX, lightAngleZ := 3.0, 45.0, 315.0;
      formats, skipExisting, autoCrop, scaleFactor := [".gltf", ".glb", ".obj", ".fbx"], false, pilAvailable, 1.0;
      verbose, logFile := false, None;
    }
  }

  /** int(ortho_scale * pixels_per_unit), in exact arithmetic. */
  function RequiredPixels(s: Settings): int {
    TruncToInt(s.orthoScale * s.pixelsPerUnit)
  }

  /** The canvas size of a framed asset: it depends on the settings alone. */
  function CanvasFor(s: Settings): int
    requires RequiredPixels(s) >= 1
  {
    CanvasSize(RequiredPixels(s), s.minCanvasSize, s.maxCanvasSize)
  }

  /** The defaults need 1024 pixels and give a 1024 canvas. */
  lemma DefaultCanvas(pilAvailable: bool)
    ensures RequiredPixels(DefaultSettings(pilAvailable)) == 1024
    ensures CanvasFor(DefaultSettings(pilAvailable)) == 1024
  {
    assert 4.0 * 256.0 == 1024.0;
    DefaultCanvasExamples();
  }

  /**
    The camera pose, by what it is computed from: setup_camera's Euler
    rotation, or the look-at pose around a centre for a pitch and a yaw.
  */
  datatype CameraPose = Initial(pitch: real, yaw: real) | LookAt(center: Vec3, pitch: real, yaw: real)

  datatype SceneState = SceneState(objects: seq<SceneObject>, resolution: int, camera: CameraPose)

  /** Objects other than meshes and empties (the camera and the light), in scene order. */
  function WithoutGeometry(objs: seq<SceneObject>): (r: seq<SceneObject>)
    ensures forall i :: 0 <= i < |r| ==> r[i].kind != Mesh && r[i].kind != Empty
    ensures forall o :: o in r <==> o in objs && o.kind != Mesh && o.kind != Empty
    decreases |objs|
  {
    if objs == [] then []
    else
      var last := objs[|objs| - 1];
      assert objs == objs[..|objs| - 1] + [last];
      WithoutGeometry(objs[..|objs| - 1]) + (if last.kind != Mesh && last.kind != Empty then [last] else [])
  }

  /** The bounding box given to the new camera and light; only meshes' boxes are ever read. */
  const Unbounded := BoundBox(Origin, Origin, Origin, Origin, Origin, Origin, Origin, Origin)
  const Origin := Vec3(0.0, 0.0, 0.0)

  /** The scene after clear_scene, setup_camera, setup_lighting and setup_render_settings. */
  function SetUpState(s: Settings): SceneState {
    SceneState([SceneObject(Camera, Unbounded), SceneObject(Light, Unbounded)], s.resolution, Initial(s.cameraAngle, s.cameraYaw))
  }

  /** The part of Blender's scene the core reads and writes. */
  class Scene {
    var objects: seq<SceneObject>
    var resolution: int
    var camera: CameraPose

    function State(): SceneState
      reads this
    {
      SceneState(objects, resolution, camera)
    }

    constructor (objects0: seq<SceneObject>, resolution0: int, camera0: CameraPose)
      ensures State() == SceneState(objects0, resolution0, camera0)
    {
      objects, resolution, camera := objects0, resolution0, camera0;
    }

    /** The one-time scene setup of a batch: only the new camera and light remain. */
    method SetUp(config: RenderConfig)
      modifies this
      ensures State() == SetUpState(config.Snapshot())
    {
      objects := [SceneObject(Camera, Unbounded), SceneObject(Light, Unbounded)];
      camera := Initial(config.cameraAngle, config.cameraYaw);
      resolution := config.resolution;
    }

    /** Deletes the previous asset's meshes and empties; camera and light stay. */
    method ClearGeometry()
      modifies this
      ensures State() == old(State()).(objects := WithoutGeometry(old(objects)))
    {
      objects := WithoutGeometry(objects);
    }

    /** Adds what an import loaded. */
    method AddObjects(objs: seq<SceneObject>)
      modifies this
      ensures State() == old(State()).(objects := old(objects) + objs)
    {
      objects := objects + objs;
    }
  }

  /** The framing part of the metadata dict. */
  datatype Framing = Framing(
    canvasWidth: int, canvasHeight: int, orthoScale: real, pixelsPerUnit: real,
    width: real, height: real, depth: real, center: Vec3)

  /** calculate_canvas_and_position as a value: the returned canvas and metadata, and the scene afterwards. */
  datatype FrameResult = FrameResult(canvas: int, framing: Option<Framing>, scene: SceneState)

  /**
    With no mesh: the configured minimum, no metadata, and the scene untouched
    (camera and resolution keep their previous values). Otherwise the camera
    looks at the centre of the mesh bounds from the configured pitch and yaw,
    and the canvas and the scene resolution are the fixed canvas size.
  */
  function Frame(s: Settings, sc: SceneState): FrameResult
    requires CountMeshes(sc.objects) > 0 ==> RequiredPixels(s) >= 1
  {
    MeshCornersCount(sc.objects);
    match BoundsOf(MeshCorners(sc.objects))
    case None => FrameResult(s.minCanvasSize, None, sc)
    case Some(b) =>
      var canvas := CanvasFor(s);
      var d := Dims(b);
      FrameResult(canvas,
                  Some(Framing(canvas, canvas, s.orthoScale, s.pixelsPerUnit, d.x, d.y, d.z, Center(b))),
                  sc.(resolution := canvas, camera := LookAt(Center(b), s.cameraAngle, s.cameraYaw)))
  }

  /**
    Framing with no mesh returns (min_canvas_size, {}) and changes nothing;
    with meshes the canvas is the fixed canvas size, the metadata records the
    configured ortho_scale and pixels_per_unit, its centre and dimensions are
    those of the mesh bounds (non-negative, holding every mesh corner), and
    only resolution and camera change.
  */
  lemma FrameSpec(s: Settings, sc: SceneState)
    requires CountMeshes(sc.objects) > 0 ==> RequiredPixels(s) >= 1
    ensures var r := Frame(s, sc);
      && (CountMeshes(sc.objects) == 0 ==> r == FrameResult(s.minCanvasSize, None, sc))
      && (CountMeshes(sc.objects) > 0 ==>
          && r.framing.Some?
          && var f := r.framing.value;
          && r.canvas == f.canvasWidth == f.canvasHeight == r.scene.resolution == CanvasFor(s)
          && r.scene == sc.(resolution := CanvasFor(s), camera := LookAt(f.center, s.cameraAngle, s.cameraYaw))
          && f.orthoScale == s.orthoScale && f.pixelsPerUnit == s.pixelsPerUnit
          && BoundsOf(MeshCorners(sc.objects)).Some?
          && f.center == Center(BoundsOf(MeshCorners(sc.objects)).value)
          && Vec3(f.width, f.height, f.depth) == Dims(BoundsOf(MeshCorners(sc.objects)).value)
          && f.width >= 0.0 && f.height >= 0.0 && f.depth >= 0.0
          && forall c :: c in MeshCorners(sc.objects) ==>
               && f.center.x - f.width / 2.0 <= c.x <= f.center.x + f.width / 2.0
               && f.center.y - f.height / 2.0 <= c.y <= f.center.y + f.height / 2.0
               && f.center.z - f.depth / 2.0 <= c.z <= f.center.z + f.depth / 2.0)
  {
    var pts := MeshCorners(sc.objects);
    MeshCornersCount(sc.objects);
    if |pts| > 0 {
      BoundsFraming(pts);
      var b := BoundsOf(pts).value;
      forall c | c in pts ensures Inside(c, b) {
        var i :| 0 <= i < |pts| && pts[i] == c;
      }
    }
  }

  /** The box a framing describes: its centre plus or minus half of each dimension. */
  function FramedBox(f: Framing): Box {
    Box(Vec3(f.center.x - f.width / 2.0, f.center.y - f.height / 2.0, f.center.z - f.depth / 2.0),
        Vec3(f.center.x + f.width / 2.0, f.center.y + f.height / 2.0, f.center.z + f.depth / 2.0))
  }

  /**
    The framing is tight: its box holds every mesh corner and lies inside
    every box that does, so it is the smallest box around the meshes, and
    the camera looks at that box's centre.
  */
  lemma FrameTight(s: Settings, sc: SceneState)
    requires CountMeshes(sc.objects) > 0 && RequiredPixels(s) >= 1
    ensures var r := Frame(s, sc);
      && r.framing.Some?
      && r.scene.camera == LookAt(r.framing.value.center, s.cameraAngle, s.cameraYaw)
      && (forall c :: c in MeshCorners(sc.objects) ==> Inside(c, FramedBox(r.framing.value)))
      && forall b: Box :: (forall c :: c in MeshCorners(sc.objects) ==> Inside(c, b)) ==>
           Geometry.Encloses(b, FramedBox(r.framing.value))
  {
    var pts := MeshCorners(sc.objects);
    FrameSpec(s, sc);
    BoundsFraming(pts);
    var f := Frame(s, sc).framing.value;
    assert FramedBox(f) == BoundsOf(pts).value;
    forall c | c in pts ensures Inside(c, FramedBox(f)) {
      var i :| 0 <= i < |pts| && pts[i] == c;
    }
    forall b: Box | forall c :: c in pts ==> Inside(c, b)
      ensures Geometry.Encloses(b, FramedBox(f))
    {
      forall i | 0 <= i < |pts| ensures Inside(pts[i], b) {
        assert pts[i] in pts;
      }
      BoundsOfSmallest(pts, b);
    }
  }

  /**
    calculate_canvas_and_position: folds the mesh corners, then either returns
    the minimum canvas and no metadata, or positions the camera, sets the
    render resolution and returns the canvas size and the metadata.
  */
  method CalculateCanvasAndPosition(scene: Scene, config: RenderConfig) returns (canvas: int, framing: Option<Framing>)
    requires CountMeshes(scene.objects) > 0 ==> RequiredPixels(config.Snapshot()) >= 1
    modifies scene
    ensures FrameResult(canvas, framing, scene.State()) == Frame(config.Snapshot(), old(scene.State()))
  {
    ghost var s := config.Snapshot();
    ghost var sc := scene.State();
    var meshCount, bounds := FoldMeshBounds(scene.objects);
    if meshCount == 0 {
      return config.minCanvasSize, None;
    }
    var b := bounds.value;
    var center := Center(b);
    var dims := Dims(b);
    scene.camera := LookAt(center, config.cameraAngle, config.cameraYaw);
    var required := TruncToInt(config.orthoScale * config.pixelsPerUnit);
    assert required == RequiredPixels(s);
    canvas := CanvasSize(required, config.minCanvasSize, config.maxCanvasSize);
    scene.resolution := canvas;
    framing := Some(Framing(canvas, canvas, config.orthoScale, config.pixelsPerUnit, dims.x, dims.y, dims.z, center));
    assert scene.State() == sc.(resolution := canvas, camera := LookAt(center, s.cameraAngle, s.cameraYaw));
  }

  /** One entry of the rotation table: yaw in degrees, filename suffix, compass label. */
  datatype Rotation = Rotation(degrees: int, suffix: string, direction: string)

  /** The four-direction table, in rendering order. */
  const FourRotations: seq<Rotation> :=
    [Rotation(0, "_s", "South"), Rotation(90, "_e", "East"), Rotation(180, "_n", "North"), Rotation(270, "_w", "West")]

  /** The metadata dict of one sprite. */
  datatype Metadata = Metadata(framing: Option<Framing>, rotationDegrees: int, direction: string, crop: CropMeta)

  /** One exported sprite: image path, metadata path, metadata, and the image left on disk. */
  datatype Export = Export(imagePath: string, metadataPath: string, metadata: Metadata, image: Image)

  /** What Blender's render does for one output path. */
  datatype RenderOutcome = RenderOutcome(ok: bool, image: Image, cropIoOk: bool)

  /** The external collaborators: whether Pillow is present, the importer and the renderer. */
  datatype World = World(pilAvailable: bool, importer: Path -> ImportOutcome, renderer: string -> RenderOutcome)

  /** Every render leaves a well-formed image. */
  ghost predicate ValidWorld(w: World) {
    forall path :: ValidImage(w.renderer(path).image)
  }

  /** The batch statistics: processed, skipped, failed, and the failed_files list. */
  datatype Stats = Stats(processed: nat, skipped: nat, failed: nat, failedFiles: seq<string>)

  /** What the run leaves behind: the image files on disk and the exported sprites, in order. */
  datatype Output = Output(files: set<string>, exports: seq<Export>)

  /** Everything the batch loop has changed so far. */
  datatype RunState = RunState(stats: Stats, scene: SceneState, out: Output)

  /** output_path / rel_path.with_suffix('.png'), as a string. */
  function OutputFile(outputDir: Path, rel: Path): string
    requires |rel| > 0
  {
    Join(outputDir + PathWithSuffix(rel, ".png"))
  }

  /** The string a failed rotation adds to failed_files. */
  function RotationFailure(rel: Path, direction: string): string {
    Join(rel) + " (" + direction + ")"
  }

  /** A failure: one more failed, and its entry appended to failed_files. */
  function Fail(st: Stats, entry: string): Stats {
    st.(failed := st.failed + 1, failedFiles := st.failedFiles + [entry])
  }

  /** The sprite a successful render leaves: cropped when auto-crop is on, the image unchanged otherwise. */
  function Cropped(autoCrop: bool, w: World, path: string): CropResult
    requires ValidImage(w.renderer(path).image)
  {
    var out := w.renderer(path);
    if autoCrop then AutoCropSprite(w.pilAvailable, out.image, out.cropIoOk) else CropResult(NoCrop, out.image)
  }

  /** metadata.update(crop_meta): an empty crop dict leaves the metadata as it is. */
  function Merge(meta: Metadata, crop: CropMeta): Metadata {
    if crop.CropInfo? then meta.(crop := crop) else meta
  }

  /** The export of a successful render: metadata with the crop fields merged in, written beside the image. */
  function ExportOf(autoCrop: bool, w: World, path: string, meta: Metadata): Export
    requires ValidImage(w.renderer(path).image)
  {
    var c := Cropped(autoCrop, w, path);
    Export(path, MetadataPath(path), Merge(meta, c.meta), c.image)
  }

  /** A successful render adds the image to the files on disk and its export to the list. */
  function Delivered(autoCrop: bool, w: World, path: string, meta: Metadata, out: Output): Output
    requires ValidImage(w.renderer(path).image)
  {
    Output(out.files + {path}, out.exports + [ExportOf(autoCrop, w, path, meta)])
  }

  /** Rotation k of the four-direction loop: yaw set to the table's angle, frame, render. */
  function RotationStep(s: Settings, w: World, rel: Path, outFile: string, k: nat, st: RunState, success: bool): (RunState, bool)
    requires k < 4 && ValidWorld(w) && RequiredPixels(s) >= 1
  {
    var rot := FourRotations[k];
    var fr := Frame(s.(cameraYaw := rot.degrees as real), st.scene);
    var path := RotatedPath(outFile, rot.suffix);
    var meta := Metadata(fr.framing, rot.degrees, rot.direction, NoCrop);
    if w.renderer(path).ok then (RunState(st.stats, fr.scene, Delivered(s.autoCrop, w, path, meta, st.out)), success)
    else (RunState(Fail(st.stats, RotationFailure(rel, rot.direction)), fr.scene, st.out), false)
  }

  /** The first n rotations of the four-direction loop. */
  function Rotations(s: Settings, w: World, rel: Path, outFile: string, n: nat, st: RunState): (RunState, bool)
    requires n <= 4 && ValidWorld(w) && RequiredPixels(s) >= 1
    decreases n
  {
    if n == 0 then (st, true)
    else
      var prev := Rotations(s, w, rel, outFile, n - 1, st);
      RotationStep(s, w, rel, outFile, n - 1, prev.0, prev.1)
  }

  /** The single render: frame with the configured yaw, label it South at 0 degrees, render. */
  function SingleRender(s: Settings, w: World, rel: Path, outFile: string, st: RunState): RunState
    requires ValidWorld(w) && RequiredPixels(s) >= 1
  {
    var fr := Frame(s, st.scene);
    var meta := Metadata(fr.framing, 0, "South", NoCrop);
    if w.renderer(outFile).ok then
      RunState(st.stats.(processed := st.stats.processed + 1), fr.scene, Delivered(s.autoCrop, w, outFile, meta, st.out))
    else
      RunState(Fail(st.stats, Join(rel)), fr.scene, st.out)
  }

  /** Rendering an imported model: four directions, counted once when all succeed, or one render. */
  function RenderModel(s: Settings, w: World, rel: Path, outFile: string, st: RunState): RunState
    requires ValidWorld(w) && RequiredPixels(s) >= 1
  {
    if s.rotations == 4 then FourWay(s, w, rel, outFile, st) else SingleRender(s, w, rel, outFile, st)
  }

  /** The four-direction mode: the model counts as processed once, when every direction rendered. */
  function FourWay(s: Settings, w: World, rel: Path, outFile: string, st: RunState): RunState
    requires ValidWorld(w) && RequiredPixels(s) >= 1
  {
    var r := Rotations(s, w, rel, outFile, 4, st);
    if r.1 then r.0.(stats := r.0.stats.(processed := r.0.stats.processed + 1)) else r.0
  }

  /** The loop body for one model. */
  function StepAsset(s: Settings, w: World, rel: Path, st: RunState): RunState
    requires |rel| > 0 && ValidWorld(w) && RequiredPixels(s) >= 1
  {
    var outFile := OutputFile(s.outputDir, rel);
    if s.skipExisting && outFile in st.out.files then st.(stats := st.stats.(skipped := st.stats.skipped + 1))
    else
      var cleared := st.scene.(objects := WithoutGeometry(st.scene.objects));
      match ImportModel(Name(rel), w.importer(rel))
      case None => st.(stats := Fail(st.stats, Join(rel)), scene := cleared)
      case Some(objs) => RenderModel(s, w, rel, outFile, st.(scene := cleared.(objects := cleared.objects + objs)))
  }

  predicate ValidModels(models: seq<Path>) {
    forall i :: 0 <= i < |models| ==> |models[i]| > 0
  }

  /** The loop over the models, in order. */
  function Run(s: Settings, w: World, models: seq<Path>, st: RunState): RunState
    requires ValidModels(models) && ValidWorld(w) && RequiredPixels(s) >= 1
    decreases |models|
  {
    if models == [] then st
    else StepAsset(s, w, models[|models| - 1], Run(s, w, models[..|models| - 1], st))
  }

  /** The state process_batch starts its loop from: zero counters and the set-up scene. */
  function Start(s: Settings, files: set<string>): RunState {
    RunState(Stats(0, 0, 0, []), SetUpState(s), Output(files, []))
  }

  /** process_batch as a value: None when no model is found, else the state after the loop. */
  function BatchOutcome(s: Settings, w: World, entries: seq<Path>, files: set<string>): Option<RunState>
    requires forall e :: e in entries ==> |e| > 0
    requires ValidWorld(w) && RequiredPixels(s) >= 1
  {
    var models := FoundModels(entries, s.formats);
    if models == [] then None else Some(Run(s, w, models, Start(s, files)))
  }

  /** Render one path and, when that succeeds, crop it and export its metadata. */
  method RenderAndExport(config: RenderConfig, world: World, path: string, meta: Metadata, out0: Output)
    returns (ok: bool, out: Output)
    requires ValidWorld(world)
    ensures ok == world.renderer(path).ok
    ensures out == if ok then Delivered(config.autoCrop, world, path, meta, out0) else out0
  {
    var rendered := world.renderer(path);
    out := out0;
    ok := rendered.ok;
    if ok {
      var metadata := meta;
      var image := rendered.image;
      if config.autoCrop {
        var c := AutoCropSprite(world.pilAvailable, rendered.image, rendered.cropIoOk);
        metadata := Merge(metadata, c.meta);
        image := c.image;
      }
      out := Output(out.files + {path}, out.exports + [Export(path, MetadataPath(path), metadata, image)]);
    }
  }

  /**
    One pass of the four-direction loop: sets the configured yaw to the
    table's angle, frames, and renders with the rotation's suffix and label.
    Only the yaw changes in the configuration.
  */
  method RenderRotation(config: RenderConfig, scene: Scene, world: World, rel: Path, outputFile: string, k: nat,
                        ghost s: Settings, stats0: Stats, out0: Output, success0: bool)
    returns (success: bool, stats: Stats, out: Output)
    requires k < 4 && ValidWorld(world) && RequiredPixels(s) >= 1
    requires config.Snapshot() == s.(cameraYaw := config.cameraYaw)
    modifies config`cameraYaw, scene
    ensures config.Snapshot() == s.(cameraYaw := config.cameraYaw)
    ensures config.cameraYaw == FourRotations[k].degrees as real
    ensures (RunState(stats, scene.State(), out), success)
      == RotationStep(s, world, rel, outputFile, k, RunState(stats0, old(scene.State()), out0), success0)
  {
    var rot := FourRotations[k];
    config.cameraYaw := rot.degrees as real;
    var canvas, framing := CalculateCanvasAndPosition(scene, config);
    var meta := Metadata(framing, rot.degrees, rot.direction, NoCrop);
    var rotated := RotatedPath(outputFile, rot.suffix);
    var ok;
    ok, out := RenderAndExport(config, world, rotated, meta, out0);
    success, stats := success0, stats0;
    if !ok {
      success := false;
      stats := Fail(stats, RotationFailure(rel, rot.direction));
    }
  }

  /** Pass k of the loop, after the first k passes: the state becomes the first k + 1 rotations. */
  method RotationPass(config: RenderConfig, scene: Scene, world: World, rel: Path, outputFile: string, k: nat,
                      ghost s: Settings, ghost st0: RunState, stats0: Stats, out0: Output, success0: bool)
    returns (success: bool, stats: Stats, out: Output)
    requires k < 4 && ValidWorld(world) && RequiredPixels(s) >= 1
    requires config.Snapshot() == s.(cameraYaw := config.cameraYaw)
    requires (RunState(stats0, scene.State(), out0), success0) == Rotations(s, world, rel, outputFile, k, st0)
    modifies config`cameraYaw, scene
    ensures config.Snapshot() == s.(cameraYaw := config.cameraYaw)
    ensures (RunState(stats, scene.State(), out), success) == Rotations(s, world, rel, outputFile, k + 1, st0)
  {
    success, stats, out := RenderRotation(config, scene, world, rel, outputFile, k, s, stats0, out0, success0);
  }

  /**
    The four-direction rendering of one imported model: saves the yaw, renders
    at each of the table's angles, and restores the yaw. The statistics, scene
    and output end as Rotations says, and the configuration is as before.
  */
  method RenderRotations(config: RenderConfig, scene: Scene, world: World, rel: Path, outputFile: string,
                         stats0: Stats, out0: Output)
    returns (renderSuccess: bool, stats: Stats, out: Output)
    requires ValidWorld(world) && RequiredPixels(config.Snapshot()) >= 1
    modifies config`cameraYaw, scene
    ensures config.Snapshot() == old(config.Snapshot())
    ensures (RunState(stats, scene.State(), out), renderSuccess)
      == Rotations(old(config.Snapshot()), world, rel, outputFile, 4, RunState(stats0, old(scene.State()), out0))
  {
    var originalYaw := config.cameraYaw;
    renderSuccess, stats, out := RotationLoop(config, scene, world, rel, outputFile, config.Snapshot(), stats0, out0);
    config.cameraYaw := originalYaw;
  }

  /** The loop over the rotation table; it leaves the yaw at the last angle. */
  method RotationLoop(config: RenderConfig, scene: Scene, world: World, rel: Path, outputFile: string,
                      ghost s: Settings, stats0: Stats, out0: Output)
    returns (renderSuccess: bool, stats: Stats, out: Output)
    requires ValidWorld(world) && RequiredPixels(s) >= 1
    requires config.Snapshot() == s
    modifies config`cameraYaw, scene
    ensures (RunState(stats, scene.State(), out), renderSuccess)
      == Rotations(s, world, rel, outputFile, 4, RunState(stats0, old(scene.State()), out0))
  {
    ghost var st0 := RunState(stats0, scene.State(), out0);
    stats, out := stats0, out0;
    renderSuccess := true;
    for k := 0 to 4
      invariant config.Snapshot() == s.(cameraYaw := config.cameraYaw)
      invariant (RunState(stats, scene.State(), out), renderSuccess) == Rotations(s, world, rel, outputFile, k, st0)
    {
      renderSuccess, stats, out := RotationPass(config, scene, world, rel, outputFile, k, s, st0, stats, out, renderSuccess);
    }
  }

  /** Renders the model just imported, in four directions or once, and updates the statistics. */
  method RenderImported(config: RenderConfig, scene: Scene, world: World, rel: Path, outputFile: string,
                        stats0: Stats, out0: Output)
    returns (stats: Stats, out: Output)
    requires ValidWorld(world) && RequiredPixels(config.Snapshot()) >= 1
    modifies config`cameraYaw, scene
    ensures config.Snapshot() == old(config.Snapshot())
    ensures RunState(stats, scene.State(), out)
      == RenderModel(old(config.Snapshot()), world, rel, outputFile, RunState(stats0, old(scene.State()), out0))
  {
    if config.rotations == 4 {
      stats, out := RenderFourWays(config, scene, world, rel, outputFile, stats0, out0);
    } else {
      stats, out := RenderSingle(config, scene, world, rel, outputFile, stats0, out0);
    }
  }

  /** The four-direction branch: render every direction, then count the model when all succeeded. */
  method RenderFourWays(config: RenderConfig, scene: Scene, world: World, rel: Path, outputFile: string,
                        stats0: Stats, out0: Output)
    returns (stats: Stats, out: Output)
    requires ValidWorld(world) && RequiredPixels(config.Snapshot()) >= 1
    modifies config`cameraYaw, scene
    ensures config.Snapshot() == old(config.Snapshot())
    ensures RunState(stats, scene.State(), out)
      == FourWay(old(config.Snapshot()), world, rel, outputFile, RunState(stats0, old(scene.State()), out0))
  {
    var renderSuccess;
    renderSuccess, stats, out := RenderRotations(config, scene, world, rel, outputFile, stats0, out0);
    if renderSuccess {
      stats := stats.(processed := stats.processed + 1);
    }
  }

  /** The single render: frame, label South at 0 degrees, render, and count the outcome. */
  method RenderSingle(config: RenderConfig, scene: Scene, world: World, rel: Path, outputFile: string,
                      stats0: Stats, out0: Output)
    returns (stats: Stats, out: Output)
    requires ValidWorld(world) && RequiredPixels(config.Snapshot()) >= 1
    modifies scene
    ensures RunState(stats, scene.State(), out)
      == SingleRender(config.Snapshot(), world, rel, outputFile, RunState(stats0, old(scene.State()), out0))
  {
    var canvas, framing := CalculateCanvasAndPosition(scene, config);
    var meta := Metadata(framing, 0, "South", NoCrop);
    var ok;
    ok, out := RenderAndExport(config, world, outputFile, meta, out0);
    if ok {
      stats := stats0.(processed := stats0.processed + 1);
    } else {
      stats := Fail(stats0, Join(rel));
    }
  }

  /**
    The loop body for one model: skip when the output exists and skipping is
    on; otherwise clear the previous geometry, import, and render. The new
    state is StepAsset's.
  */
  method ProcessAsset(config: RenderConfig, scene: Scene, world: World, rel: Path, stats0: Stats, out0: Output)
    returns (stats: Stats, out: Output)
    requires |rel| > 0 && ValidWorld(world) && RequiredPixels(config.Snapshot()) >= 1
    modifies config`cameraYaw, scene
    ensures config.Snapshot() == old(config.Snapshot())
    ensures RunState(stats, scene.State(), out)
      == StepAsset(old(config.Snapshot()), world, rel, RunState(stats0, old(scene.State()), out0))
  {
    stats, out := stats0, out0;
    var outputFile := OutputFile(config.outputDir, rel);
    if config.skipExisting && outputFile in out.files {
      stats := stats.(skipped := stats.skipped + 1);
      return;
    }
    scene.ClearGeometry();
    var imported := ImportModel(Name(rel), world.importer(rel));
    if imported.None? {
      stats := Fail(stats, Join(rel));
      return;
    }
    scene.AddObjects(imported.value);
    stats, out := RenderImported(config, scene, world, rel, outputFile, stats, out);
  }

  /** The loop over the models, after the one-time scene setup. */
  method ProcessModels(config: RenderConfig, scene: Scene, world: World, models: seq<Path>, st0: Stats, out0: Output)
    returns (stats: Stats, out: Output)
    requires ValidModels(models) && ValidWorld(world) && RequiredPixels(config.Snapshot()) >= 1
    modifies config`cameraYaw, scene
    ensures config.Snapshot() == old(config.Snapshot())
    ensures RunState(stats, scene.State(), out)
      == Run(old(config.Snapshot()), world, models, RunState(st0, old(scene.State()), out0))
  {
    ghost var s := config.Snapshot();
    ghost var start := RunState(st0, scene.State(), out0);
    stats, out := st0, out0;
    var i := 0;
    while i < |models|
      invariant 0 <= i <= |models|
      invariant config.Snapshot() == s
      invariant RunState(stats, scene.State(), out) == Run(s, world, models[..i], start)
    {
      assert models[..i + 1][..i] == models[..i];
      stats, out := ProcessAsset(config, scene, world, models[i], stats, out);
      i := i + 1;
    }
    assert models[..i] == models;
  }

  /**
    process_batch. Finds and sorts the models; with none it returns at once
    and changes nothing. Otherwise it sets up the scene once and processes the
    models in order: statistics, scene and output end as BatchOutcome says, and the
    configuration is as before.
  */
  method ProcessBatch(config: RenderConfig, scene: Scene, entries: seq<Path>, world: World, files0: set<string>)
    returns (stats: Stats, out: Output)
    requires forall e :: e in entries ==> |e| > 0
    requires ValidWorld(world) && RequiredPixels(config.Snapshot()) >= 1
    modifies config`cameraYaw, scene
    ensures config.Snapshot() == old(config.Snapshot())
    ensures match BatchOutcome(old(config.Snapshot()), world, entries, files0)
      case None => stats == Stats(0, 0, 0, []) && out == Output(files0, []) && scene.State() == old(scene.State())
      case Some(st) => RunState(stats, scene.State(), out) == st
  {
    var models := FindModels(entries, config.formats);
    stats, out := Stats(0, 0, 0, []), Output(files0, []);
    if |models| == 0 {
      return;
    }
    scene.SetUp(config);
    stats, out := ProcessModels(config, scene, world, models, stats, out);
  }
}
