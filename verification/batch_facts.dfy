/**
  Properties of the batch loop of process_batch, stated over the value model
  in module Batch: the counters and failed_files stay in step, every export
  sits beside its image with a label from the rotation table, each model
  moves exactly one counter in single-render mode, and a rerun with
  skip_existing over already rendered models only counts skips.
*/
module BatchFacts {
  import opened Wrappers
  import opened Geometry
  import opened Canvas
  import opened Paths
  import opened Crop
  import opened Importer
  import opened Batch

  /** failed always equals the length of failed_files. */
  predicate Consistent(st: Stats) {
    st.failed == |st.failedFiles|
  }

  /** Counter total: each model, or each failed rotation, moves it. */
  function Tally(st: Stats): nat {
    st.processed + st.skipped + st.failed
  }

  /** One export is well formed for a fixed canvas size. */
  predicate ExportOk(canvas: int, files: set<string>, e: Export) {
    && e.metadataPath == MetadataPath(e.imagePath)
    && e.imagePath in files
    && (exists r :: r in FourRotations && r.degrees == e.metadata.rotationDegrees && r.direction == e.metadata.direction)
    && (e.metadata.framing.Some? ==>
          e.metadata.framing.value.canvasWidth == canvas == e.metadata.framing.value.canvasHeight)
  }

  /** Every export so far is well formed. */
  predicate WellExported(canvas: int, out: Output) {
    forall e :: e in out.exports ==> ExportOk(canvas, out.files, e)
  }

  /** What the batch keeps true from its start: counters in step, exports well formed. */
  predicate Inv(canvas: int, st: RunState) {
    Consistent(st.stats) && WellExported(canvas, st.out)
  }

  /** st2 extends st1: files only added, exports only appended, counters never decrease. */
  predicate Grows(st1: RunState, st2: RunState) {
    && st1.out.files <= st2.out.files
    && |st1.out.exports| <= |st2.out.exports|
    && st2.out.exports[..|st1.out.exports|] == st1.out.exports
    && st1.stats.processed <= st2.stats.processed
    && st1.stats.skipped <= st2.stats.skipped
    && st1.stats.failed <= st2.stats.failed
    && |st1.stats.failedFiles| <= |st2.stats.failedFiles|
    && st2.stats.failedFiles[..|st1.stats.failedFiles|] == st1.stats.failedFiles
  }

  lemma GrowsTransitive(a: RunState, b: RunState, c: RunState)
    requires Grows(a, b) && Grows(b, c)
    ensures Grows(a, c)
  {
    assert c.out.exports[..|a.out.exports|] == c.out.exports[..|b.out.exports|][..|a.out.exports|];
    assert c.stats.failedFiles[..|a.stats.failedFiles|] == c.stats.failedFiles[..|b.stats.failedFiles|][..|a.stats.failedFiles|];
  }

  /** The number of the first n rotations whose render fails. */
  function FailedRenders(w: World, outFile: string, n: nat): (r: nat)
    requires n <= 4
    ensures r <= n
  {
    if n == 0 then 0
    else FailedRenders(w, outFile, n - 1) + (if w.renderer(RotatedPath(outFile, FourRotations[n - 1].suffix)).ok then 0 else 1)
  }

  /** The failed_files entries "rel (Direction)" of the first n rotations whose render fails, in table order. */
  function FailedEntries(w: World, rel: Path, outFile: string, n: nat): (r: seq<string>)
    requires n <= 4
    ensures |r| == FailedRenders(w, outFile, n)
    ensures forall e :: e in r ==> exists k :: 0 <= k < n && e == RotationFailure(rel, FourRotations[k].direction)
  {
    if n == 0 then []
    else
      var rot := FourRotations[n - 1];
      FailedEntries(w, rel, outFile, n - 1)
        + (if w.renderer(RotatedPath(outFile, rot.suffix)).ok then [] else [RotationFailure(rel, rot.direction)])
  }

  /** A delivered render keeps the invariant and extends the output. */
  lemma DeliveredKeeps(s: Settings, w: World, path: string, meta: Metadata, st: RunState, canvas: int)
    requires ValidWorld(w) && Inv(canvas, st)
    requires exists r :: r in FourRotations && r.degrees == meta.rotationDegrees && r.direction == meta.direction
    requires meta.framing.Some? ==> meta.framing.value.canvasWidth == canvas == meta.framing.value.canvasHeight
    ensures var out := Delivered(s.autoCrop, w, path, meta, st.out);
      && WellExported(canvas, out)
      && path in out.files
      && Grows(st, st.(out := out))
      && |out.exports| == |st.out.exports| + 1
  {
    var out := Delivered(s.autoCrop, w, path, meta, st.out);
    var e := ExportOf(s.autoCrop, w, path, meta);
    assert out.exports == st.out.exports + [e];
    assert ExportOk(canvas, out.files, e);
    forall x | x in out.exports ensures ExportOk(canvas, out.files, x) {
      if x != e {
        assert x in st.out.exports;
        assert ExportOk(canvas, st.out.files, x);
      }
    }
  }

  /**
    The first n rotations: processed and skipped stay, failed grows by the
    number of failed renders, success means no render failed, and each
    successful render leaves one export.
  */
  lemma {:induction false} RotationsCount(s: Settings, w: World, rel: Path, outFile: string, n: nat, st: RunState)
    requires n <= 4 && ValidWorld(w) && RequiredPixels(s) >= 1
    ensures var r := Rotations(s, w, rel, outFile, n, st);
      && r.0.stats.processed == st.stats.processed
      && r.0.stats.skipped == st.stats.skipped
      && r.0.stats.failed == st.stats.failed + FailedRenders(w, outFile, n)
      && (r.1 <==> FailedRenders(w, outFile, n) == 0)
      && |r.0.out.exports| == |st.out.exports| + n - FailedRenders(w, outFile, n)
      && r.0.stats.failedFiles == st.stats.failedFiles + FailedEntries(w, rel, outFile, n)
    decreases n
  {
    if n > 0 {
      RotationsCount(s, w, rel, outFile, n - 1, st);
      var prev := Rotations(s, w, rel, outFile, n - 1, st);
      RotationStepCount(s, w, rel, outFile, n - 1, prev.0, prev.1);
    }
  }

  /** Rotation k adds one export when its render succeeds, and one failure otherwise. */
  lemma RotationStepCount(s: Settings, w: World, rel: Path, outFile: string, k: nat, st: RunState, success: bool)
    requires k < 4 && ValidWorld(w) && RequiredPixels(s) >= 1
    ensures var ok := w.renderer(RotatedPath(outFile, FourRotations[k].suffix)).ok;
      var r := RotationStep(s, w, rel, outFile, k, st, success);
      && r.0.stats.processed == st.stats.processed
      && r.0.stats.skipped == st.stats.skipped
      && r.0.stats.failed == st.stats.failed + (if ok then 0 else 1)
      && (r.1 <==> success && ok)
      && |r.0.out.exports| == |st.out.exports| + (if ok then 1 else 0)
      && r.0.stats.failedFiles == st.stats.failedFiles + (if ok then [] else [RotationFailure(rel, FourRotations[k].direction)])
  {
  }

  /** The canvas size does not depend on the camera yaw. */
  lemma CanvasIgnoresYaw(s: Settings, yaw: real)
    requires RequiredPixels(s) >= 1
    ensures RequiredPixels(s.(cameraYaw := yaw)) == RequiredPixels(s)
    ensures CanvasFor(s.(cameraYaw := yaw)) == CanvasFor(s)
  {
    var s' := s.(cameraYaw := yaw);
    assert s'.orthoScale * s'.pixelsPerUnit == s.orthoScale * s.pixelsPerUnit;
  }

  /** Rotation k keeps the invariant and only extends the state. */
  lemma RotationStepKeeps(s: Settings, w: World, rel: Path, outFile: string, k: nat, st: RunState, success: bool)
    requires k < 4 && ValidWorld(w) && RequiredPixels(s) >= 1
    requires Inv(CanvasFor(s), st)
    ensures var r := RotationStep(s, w, rel, outFile, k, st, success).0;
      Inv(CanvasFor(s), r) && Grows(st, r)
  {
    var rot := FourRotations[k];
    var s' := s.(cameraYaw := rot.degrees as real);
    var fr := Frame(s', st.scene);
    var path := RotatedPath(outFile, rot.suffix);
    var meta := Metadata(fr.framing, rot.degrees, rot.direction, NoCrop);
    CanvasIgnoresYaw(s, rot.degrees as real);
    var r := RotationStep(s, w, rel, outFile, k, st, success).0;
    if w.renderer(path).ok {
      assert rot in FourRotations;
      DeliveredKeeps(s, w, path, meta, st.(scene := fr.scene), CanvasFor(s));
    } else {
      assert r.stats.failedFiles[..|st.stats.failedFiles|] == st.stats.failedFiles;
    }
  }

  /**
    Rotation k, on a successful render, appends one export: the image at the
    direction-suffixed path, its JSON beside it, labelled with the table's
    angle and direction. A failed render appends nothing.
  */
  lemma RotationStepLabel(s: Settings, w: World, rel: Path, outFile: string, k: nat, st: RunState, success: bool)
    requires k < 4 && ValidWorld(w) && RequiredPixels(s) >= 1
    ensures var rot := FourRotations[k];
      var path := RotatedPath(outFile, rot.suffix);
      var r := RotationStep(s, w, rel, outFile, k, st, success).0;
      && (w.renderer(path).ok ==>
          && |r.out.exports| == |st.out.exports| + 1
          && r.out.exports[|st.out.exports|].imagePath == path
          && r.out.exports[|st.out.exports|].metadataPath == MetadataPath(path)
          && r.out.exports[|st.out.exports|].metadata.rotationDegrees == rot.degrees
          && r.out.exports[|st.out.exports|].metadata.direction == rot.direction)
      && (!w.renderer(path).ok ==> r.out == st.out)
  {
    var rot := FourRotations[k];
    var fr := Frame(s.(cameraYaw := rot.degrees as real), st.scene);
    var path := RotatedPath(outFile, rot.suffix);
    var meta := Metadata(fr.framing, rot.degrees, rot.direction, NoCrop);
    if w.renderer(path).ok {
      var e := ExportOf(s.autoCrop, w, path, meta);
      assert e.metadata.rotationDegrees == rot.degrees && e.metadata.direction == rot.direction;
    }
  }

  /**
    Rotation k sets the camera yaw to the table's absolute angle: with a mesh
    the camera looks at the mesh bounds' centre from the configured pitch and
    that yaw, and a successful render's framing is centred there; without
    one the scene is unchanged.
  */
  lemma RotationStepCamera(s: Settings, w: World, rel: Path, outFile: string, k: nat, st: RunState, success: bool)
    requires k < 4 && ValidWorld(w) && RequiredPixels(s) >= 1
    ensures var rot := FourRotations[k];
      var path := RotatedPath(outFile, rot.suffix);
      var r := RotationStep(s, w, rel, outFile, k, st, success).0;
      && (CountMeshes(st.scene.objects) > 0 ==>
          && r.scene.camera.LookAt?
          && r.scene.camera.pitch == s.cameraAngle
          && r.scene.camera.yaw == rot.degrees as real
          && BoundsOf(MeshCorners(st.scene.objects)).Some?
          && r.scene.camera.center == Center(BoundsOf(MeshCorners(st.scene.objects)).value)
          && (w.renderer(path).ok ==>
                && |r.out.exports| == |st.out.exports| + 1
                && r.out.exports[|st.out.exports|].metadata.framing.Some?
                && r.out.exports[|st.out.exports|].metadata.framing.value.center == r.scene.camera.center))
      && (CountMeshes(st.scene.objects) == 0 ==> r.scene == st.scene)
  {
    FrameSpec(s.(cameraYaw := FourRotations[k].degrees as real), st.scene);
  }

  /** The first n rotations keep the invariant and only extend the state. */
  lemma {:induction false} RotationsKeep(s: Settings, w: World, rel: Path, outFile: string, n: nat, st: RunState)
    requires n <= 4 && ValidWorld(w) && RequiredPixels(s) >= 1
    requires Inv(CanvasFor(s), st)
    ensures var r := Rotations(s, w, rel, outFile, n, st).0;
      Inv(CanvasFor(s), r) && Grows(st, r)
    decreases n
  {
    if n > 0 {
      var prev := Rotations(s, w, rel, outFile, n - 1, st);
      RotationsKeep(s, w, rel, outFile, n - 1, st);
      RotationStepKeeps(s, w, rel, outFile, n - 1, prev.0, prev.1);
      GrowsTransitive(st, prev.0, Rotations(s, w, rel, outFile, n, st).0);
    }
  }

  /**
    One model in four-rotation mode, when it is neither skipped nor fails to
    import: processed grows by one exactly when all four renders succeed,
    failed grows by the number of failed renders, and each successful render
    leaves one export.
  */
  lemma FourRotationModel(s: Settings, w: World, rel: Path, st: RunState)
    requires |rel| > 0 && ValidWorld(w) && RequiredPixels(s) >= 1 && Inv(CanvasFor(s), st)
    requires s.rotations == 4
    requires !(s.skipExisting && OutputFile(s.outputDir, rel) in st.out.files)
    requires ImportModel(Name(rel), w.importer(rel)).Some?
    ensures var r := StepAsset(s, w, rel, st);
      var f := FailedRenders(w, OutputFile(s.outputDir, rel), 4);
      && r.stats.processed == st.stats.processed + (if f == 0 then 1 else 0)
      && r.stats.skipped == st.stats.skipped
      && r.stats.failed == st.stats.failed + f
      && |r.out.exports| == |st.out.exports| + 4 - f
      && r.stats.failedFiles == st.stats.failedFiles + FailedEntries(w, rel, OutputFile(s.outputDir, rel), 4)
  {
    var outFile := OutputFile(s.outputDir, rel);
    var cleared := st.scene.(objects := WithoutGeometry(st.scene.objects));
    var objs := ImportModel(Name(rel), w.importer(rel)).value;
    RotationsCount(s, w, rel, outFile, 4, st.(scene := cleared.(objects := cleared.objects + objs)));
  }

  /**
    The first n rotations change whether a path x is on disk only if x is one
    of their rotated paths.
  */
  lemma {:induction false} RotationsFiles(s: Settings, w: World, rel: Path, outFile: string, n: nat, st: RunState, x: string)
    requires n <= 4 && ValidWorld(w) && RequiredPixels(s) >= 1
    requires forall k :: 0 <= k < n ==> RotatedPath(outFile, FourRotations[k].suffix) != x
    ensures x in Rotations(s, w, rel, outFile, n, st).0.out.files <==> x in st.out.files
    decreases n
  {
    if n > 0 {
      RotationsFiles(s, w, rel, outFile, n - 1, st, x);
      var prev := Rotations(s, w, rel, outFile, n - 1, st);
      RotationStepFiles(s, w, rel, outFile, n - 1, prev.0, prev.1);
    }
  }

  /** Rotation k puts on disk its own rotated path, when that renders, and nothing else. */
  lemma RotationStepFiles(s: Settings, w: World, rel: Path, outFile: string, k: nat, st: RunState, success: bool)
    requires k < 4 && ValidWorld(w) && RequiredPixels(s) >= 1
    ensures var path := RotatedPath(outFile, FourRotations[k].suffix);
      RotationStep(s, w, rel, outFile, k, st, success).0.out.files
        == if w.renderer(path).ok then st.out.files + {path} else st.out.files
  {
  }

  /** The output file of a model is a string ending in ".png". */
  lemma OutputFileIsPng(outputDir: Path, rel: Path)
    requires |rel| > 0
    ensures EndsWith(OutputFile(outputDir, rel), ".png")
  {
    var q := outputDir + PathWithSuffix(rel, ".png");
    PngPathEndsWithPng(rel);
    assert Name(q) == Name(PathWithSuffix(rel, ".png"));
    JoinEndsWithName(q);
    assert Join(q)[|Join(q)| - |Name(q)|..][|Name(q)| - 4..] == ".png";
  }

  /**
    In four-rotation mode a model's renders never create the output file its
    own skip test looks at (they all carry a direction suffix), so that file
    is on disk after the model exactly when it was before.
  */
  lemma FourRotationSkipTarget(s: Settings, w: World, rel: Path, st: RunState)
    requires |rel| > 0 && ValidWorld(w) && RequiredPixels(s) >= 1
    requires s.rotations == 4
    ensures OutputFile(s.outputDir, rel) in StepAsset(s, w, rel, st).out.files <==> OutputFile(s.outputDir, rel) in st.out.files
  {
    var outFile := OutputFile(s.outputDir, rel);
    if !(s.skipExisting && outFile in st.out.files) {
      var cleared := st.scene.(objects := WithoutGeometry(st.scene.objects));
      match ImportModel(Name(rel), w.importer(rel))
      case None =>
      case Some(objs) =>
        var st1 := st.(scene := cleared.(objects := cleared.objects + objs));
        assert StepAsset(s, w, rel, st) == FourWay(s, w, rel, outFile, st1);
        OutputFileIsPng(s.outputDir, rel);
        FourWayKeepsOutput(s, w, rel, outFile, st1);
    }
  }

  /** The four renders of one model leave an unsuffixed ".png" path as it was on disk. */
  lemma FourWayKeepsOutput(s: Settings, w: World, rel: Path, outFile: string, st: RunState)
    requires ValidWorld(w) && RequiredPixels(s) >= 1 && EndsWith(outFile, ".png")
    ensures outFile in FourWay(s, w, rel, outFile, st).out.files <==> outFile in st.out.files
  {
    forall k | 0 <= k < 4 ensures RotatedPath(outFile, FourRotations[k].suffix) != outFile {
      RotatedDiffers(outFile, FourRotations[k].suffix);
    }
    RotationsFiles(s, w, rel, outFile, 4, st, outFile);
  }

  /**
    Hence in four-rotation mode with skip_existing, a model whose output file
    did not exist is not skipped when it comes up again, however its four
    renders went.
  */
  lemma FourRotationRerunNotSkipped(s: Settings, w: World, rel: Path, st: RunState)
    requires |rel| > 0 && ValidWorld(w) && RequiredPixels(s) >= 1
    requires s.rotations == 4 && s.skipExisting
    requires OutputFile(s.outputDir, rel) !in st.out.files
    ensures var once := StepAsset(s, w, rel, st);
      StepAsset(s, w, rel, once).stats.skipped == once.stats.skipped
  {
    var once := StepAsset(s, w, rel, st);
    FourRotationSkipTarget(s, w, rel, st);
    var outFile := OutputFile(s.outputDir, rel);
    var twice := StepAsset(s, w, rel, once);
    var cleared := once.scene.(objects := WithoutGeometry(once.scene.objects));
    match ImportModel(Name(rel), w.importer(rel))
    case None =>
    case Some(objs) =>
      RotationsCount(s, w, rel, outFile, 4, once.(scene := cleared.(objects := cleared.objects + objs)));
  }

  /**
    The four sprites of a model whose output file has ".png" only at its end:
    each is the output file's stem with the direction's suffix and ".png",
    and its metadata sits beside it with ".json".
  */
  lemma RotationSidecars(outFile: string, k: nat)
    requires OnlyAtEnd(outFile, ".png") && k < 4
    ensures var stem := outFile[..|outFile| - 4];
      && RotatedPath(outFile, FourRotations[k].suffix) == stem + FourRotations[k].suffix + ".png"
      && MetadataPath(RotatedPath(outFile, FourRotations[k].suffix)) == stem + FourRotations[k].suffix + ".json"
  {
    assert RotationSuffix(FourRotations[k].suffix);
    SidecarPaths(outFile, FourRotations[k].suffix);
  }

  /** The four sprites of such a model are four different files. */
  lemma RotationsDistinct(outFile: string, j: nat, k: nat)
    requires OnlyAtEnd(outFile, ".png") && j < k < 4
    ensures RotatedPath(outFile, FourRotations[j].suffix) != RotatedPath(outFile, FourRotations[k].suffix)
  {
    RotationSidecars(outFile, j);
    RotationSidecars(outFile, k);
    var stem := outFile[..|outFile| - 4];
    var a := stem + FourRotations[j].suffix + ".png";
    var b := stem + FourRotations[k].suffix + ".png";
    assert a[|stem| + 1] != b[|stem| + 1];
  }

  /**
    A model whose import fails: one failure, recorded as the relative path,
    no output, and the scene left with its camera and light only.
  */
  lemma ImportFailure(s: Settings, w: World, rel: Path, st: RunState)
    requires |rel| > 0 && ValidWorld(w) && RequiredPixels(s) >= 1
    requires !(s.skipExisting && OutputFile(s.outputDir, rel) in st.out.files)
    requires ImportModel(Name(rel), w.importer(rel)).None?
    ensures var r := StepAsset(s, w, rel, st);
      && r.stats.failedFiles == st.stats.failedFiles + [Join(rel)]
      && r.stats.failed == st.stats.failed + 1
      && r.stats.processed == st.stats.processed && r.stats.skipped == st.stats.skipped
      && r.out == st.out
      && CountMeshes(r.scene.objects) == 0
      && forall o :: o in r.scene.objects <==> o in st.scene.objects && o.kind != Mesh && o.kind != Empty
  {
    var objs := WithoutGeometry(st.scene.objects);
    NoMeshes(objs);
  }

  /** A list with no mesh in it counts no mesh. */
  lemma {:induction false} NoMeshes(objs: seq<SceneObject>)
    requires forall i :: 0 <= i < |objs| ==> objs[i].kind != Mesh
    ensures CountMeshes(objs) == 0
    decreases |objs|
  {
    if objs != [] {
      NoMeshes(objs[..|objs| - 1]);
    }
  }

  /**
    The single render: on success the model is processed and one export is
    appended, for the output file itself, labelled 0 degrees and "South";
    on failure str(rel_path) is appended to failed_files and nothing is
    written. The invariant is kept and the state only grows.
  */
  lemma SingleRenderKeeps(s: Settings, w: World, rel: Path, outFile: string, st: RunState)
    requires ValidWorld(w) && RequiredPixels(s) >= 1 && Inv(CanvasFor(s), st)
    ensures var r := SingleRender(s, w, rel, outFile, st);
      && (w.renderer(outFile).ok ==>
          && r.stats == st.stats.(processed := st.stats.processed + 1)
          && outFile in r.out.files
          && |r.out.exports| == |st.out.exports| + 1
          && r.out.exports[|st.out.exports|].imagePath == outFile
          && r.out.exports[|st.out.exports|].metadata.rotationDegrees == 0
          && r.out.exports[|st.out.exports|].metadata.direction == "South")
      && (!w.renderer(outFile).ok ==> r.stats == Fail(st.stats, Join(rel)) && r.out == st.out)
      && Inv(CanvasFor(s), r)
      && Grows(st, r)
  {
    var fr := Frame(s, st.scene);
    var meta := Metadata(fr.framing, 0, "South", NoCrop);
    var r := SingleRender(s, w, rel, outFile, st);
    if w.renderer(outFile).ok {
      assert FourRotations[0] in FourRotations;
      DeliveredKeeps(s, w, outFile, meta, st.(scene := fr.scene), CanvasFor(s));
    } else {
      assert r.stats.failedFiles[..|st.stats.failedFiles|] == st.stats.failedFiles;
    }
  }

  /**
    The single render frames the model at the configured yaw, although its
    sprite is labelled 0 degrees: with a mesh the camera looks at the mesh
    bounds' centre from the configured pitch and yaw, and the exported
    framing is centred there; without one the scene is unchanged.
  */
  lemma SingleRenderCamera(s: Settings, w: World, rel: Path, outFile: string, st: RunState)
    requires ValidWorld(w) && RequiredPixels(s) >= 1
    ensures var r := SingleRender(s, w, rel, outFile, st);
      && (CountMeshes(st.scene.objects) > 0 ==>
          && r.scene.camera.LookAt?
          && r.scene.camera.pitch == s.cameraAngle
          && r.scene.camera.yaw == s.cameraYaw
          && BoundsOf(MeshCorners(st.scene.objects)).Some?
          && r.scene.camera.center == Center(BoundsOf(MeshCorners(st.scene.objects)).value)
          && (w.renderer(outFile).ok ==>
                && |r.out.exports| == |st.out.exports| + 1
                && r.out.exports[|st.out.exports|].metadata.framing.Some?
                && r.out.exports[|st.out.exports|].metadata.framing.value.center == r.scene.camera.center))
      && (CountMeshes(st.scene.objects) == 0 ==> r.scene == st.scene)
  {
    FrameSpec(s, st.scene);
  }

  /**
    One model in single-render mode moves exactly one counter by one:
    skipped when its output already exists and skipping is on, processed
    when it renders (its output then exists), failed otherwise (with
    str(rel_path) appended to failed_files). That the invariant is kept
    and the state only grows is StepAssetSpec.
  */
  lemma SingleRenderModel(s: Settings, w: World, rel: Path, st: RunState)
    requires |rel| > 0 && ValidWorld(w) && RequiredPixels(s) >= 1 && Inv(CanvasFor(s), st)
    requires s.rotations != 4
    ensures var r := StepAsset(s, w, rel, st);
      var outFile := OutputFile(s.outputDir, rel);
      && Tally(r.stats) == Tally(st.stats) + 1
      && (r.stats.skipped == st.stats.skipped + 1 <==> s.skipExisting && outFile in st.out.files)
      && (r.stats.processed == st.stats.processed + 1 ==> outFile in r.out.files)
      && (r.stats.failed == st.stats.failed + 1 ==> r.stats.failedFiles == st.stats.failedFiles + [Join(rel)])
  {
    var outFile := OutputFile(s.outputDir, rel);
    var r := StepAsset(s, w, rel, st);
    if !(s.skipExisting && outFile in st.out.files) {
      var cleared := st.scene.(objects := WithoutGeometry(st.scene.objects));
      match ImportModel(Name(rel), w.importer(rel))
      case None =>
        assert r.stats.failedFiles[..|st.stats.failedFiles|] == st.stats.failedFiles;
      case Some(objs) =>
        var st1 := st.(scene := cleared.(objects := cleared.objects + objs));
        assert r == SingleRender(s, w, rel, outFile, st1);
        SingleRenderKeeps(s, w, rel, outFile, st1);
    }
  }

  /**
    One model in either mode: the counter total grows by one to four, the
    invariant is kept and the state only grows.
  */
  lemma StepAssetSpec(s: Settings, w: World, rel: Path, st: RunState)
    requires |rel| > 0 && ValidWorld(w) && RequiredPixels(s) >= 1 && Inv(CanvasFor(s), st)
    ensures var r := StepAsset(s, w, rel, st);
      && Tally(st.stats) + 1 <= Tally(r.stats) <= Tally(st.stats) + 4
      && (s.rotations != 4 ==> Tally(r.stats) == Tally(st.stats) + 1)
      && Inv(CanvasFor(s), r)
      && Grows(st, r)
  {
    var outFile := OutputFile(s.outputDir, rel);
    var r := StepAsset(s, w, rel, st);
    if !(s.skipExisting && outFile in st.out.files) {
      var cleared := st.scene.(objects := WithoutGeometry(st.scene.objects));
      match ImportModel(Name(rel), w.importer(rel))
      case None =>
        assert r.stats.failedFiles[..|st.stats.failedFiles|] == st.stats.failedFiles;
      case Some(objs) =>
        var st1 := st.(scene := cleared.(objects := cleared.objects + objs));
        if s.rotations != 4 {
          assert r == SingleRender(s, w, rel, outFile, st1);
          SingleRenderKeeps(s, w, rel, outFile, st1);
          return;
        }
        assert r == FourWay(s, w, rel, outFile, st1);
        RotationsCount(s, w, rel, outFile, 4, st1);
        RotationsKeep(s, w, rel, outFile, 4, st1);
        var q := Rotations(s, w, rel, outFile, 4, st1);
        assert FailedRenders(w, outFile, 4) >= 1 || q.1;
    }
  }

  /**
    The loop over the models: the invariant is kept, the state only grows,
    and the counter total grows by between one and four per model, by
    exactly one per model in single-render mode.
  */
  lemma {:induction false} RunSpec(s: Settings, w: World, models: seq<Path>, st: RunState)
    requires ValidModels(models) && ValidWorld(w) && RequiredPixels(s) >= 1 && Inv(CanvasFor(s), st)
    ensures var r := Run(s, w, models, st);
      && Tally(st.stats) + |models| <= Tally(r.stats) <= Tally(st.stats) + 4 * |models|
      && (s.rotations != 4 ==> Tally(r.stats) == Tally(st.stats) + |models|)
      && Inv(CanvasFor(s), r)
      && Grows(st, r)
    decreases |models|
  {
    if models != [] {
      var init := models[..|models| - 1];
      RunSpec(s, w, init, st);
      var mid := Run(s, w, init, st);
      StepAssetSpec(s, w, models[|models| - 1], mid);
      GrowsTransitive(st, mid, Run(s, w, models, st));
    }
  }

  /**
    process_batch as a whole: with no model nothing happens; otherwise every
    model is accounted for, failed equals the length of failed_files, every
    export's metadata sits beside its image on disk with a label from the
    rotation table and the configured canvas size, and files that existed
    before still exist.
  */
  lemma BatchSpec(s: Settings, w: World, entries: seq<Path>, files: set<string>)
    requires forall e :: e in entries ==> |e| > 0
    requires ValidWorld(w) && RequiredPixels(s) >= 1
    ensures match BatchOutcome(s, w, entries, files)
      case None => FoundModels(entries, s.formats) == []
      case Some(r) =>
        var n := |FoundModels(entries, s.formats)|;
        && n <= Tally(r.stats) <= 4 * n
        && (s.rotations != 4 ==> Tally(r.stats) == n)
        && Consistent(r.stats)
        && WellExported(CanvasFor(s), r.out)
        && files <= r.out.files
  {
    var models := FoundModels(entries, s.formats);
    if models != [] {
      RunSpec(s, w, models, Start(s, files));
    }
  }

  /**
    A rerun with skip_existing over models whose output files all exist:
    every model is skipped and nothing but the skipped counter changes.
  */
  lemma {:induction false} RerunSkipsAll(s: Settings, w: World, models: seq<Path>, st: RunState)
    requires ValidModels(models) && ValidWorld(w) && RequiredPixels(s) >= 1
    requires s.skipExisting
    requires forall i :: 0 <= i < |models| ==> OutputFile(s.outputDir, models[i]) in st.out.files
    ensures Run(s, w, models, st) == st.(stats := st.stats.(skipped := st.stats.skipped + |models|))
    decreases |models|
  {
    if models != [] {
      RerunSkipsAll(s, w, models[..|models| - 1], st);
    }
  }
}
