/**
  The size inspector: for each model path given after "--" on the command
  line, clear the scene, import the model, fold the world-space corners of
  its meshes into a bounding box, and report width, height, depth and the
  largest of the three; then average the largest dimensions of the models
  that produced a report.
*/
module Inspect {
  import opened Wrappers
  import opened Geometry
  import opened Paths
  import opened Importer

  /** The dict inspect_model returns: file name, the three extents, and the largest. */
  datatype SizeReport = SizeReport(file: string, width: real, height: real, depth: real, maxDim: real)

  /** The three ways main can end: no "--", nothing after it, or a summary. */
  datatype InspectRun = Usage | NoPaths | Summary(reports: seq<SizeReport>, average: Option<real>)

  function Max3(a: real, b: real, c: real): (m: real)
    ensures m >= a && m >= b && m >= c
    ensures m == a || m == b || m == c
  {
    Max(Max(a, b), c)
  }

  /**
    inspect_model as a value. The scene is cleared first, so what is folded
    is exactly what the import added.
  */
  function Inspected(filepath: string, outcome: ImportOutcome): Option<SizeReport> {
    match ImportModel(NameOf(filepath), outcome)
    case None => None
    case Some(objs) =>
      match BoundsOf(MeshCorners(objs))
      case None => None
      case Some(b) =>
        var d := Dims(b);
        Some(SizeReport(NameOf(filepath), d.x, d.y, d.z, Max3(d.x, d.y, d.z)))
  }

  /**
    A report exists exactly when the extension is supported, the importer
    does not raise and the model has a mesh; it names the file by its last
    path component.
  */
  lemma InspectedExists(filepath: string, outcome: ImportOutcome)
    ensures var r := Inspected(filepath, outcome);
      && (r.Some? <==> ImportModel(NameOf(filepath), outcome).Some?
                       && CountMeshes(ImportModel(NameOf(filepath), outcome).value) > 0)
      && (r.Some? ==> r.value.file == NameOf(filepath) && '/' !in r.value.file)
  {
    match ImportModel(NameOf(filepath), outcome)
    case None =>
    case Some(objs) =>
      MeshCornersCount(objs);
  }

  /**
    The reported extents are those of the smallest box holding every mesh
    corner: some box of exactly those extents holds them all, every box that
    holds them all is at least as large on each axis, the extents are
    non-negative, and the maximum is the largest of the three.
  */
  lemma InspectedExtents(filepath: string, outcome: ImportOutcome)
    requires Inspected(filepath, outcome).Some?
    ensures ImportModel(NameOf(filepath), outcome).Some?
    ensures var pts := MeshCorners(ImportModel(NameOf(filepath), outcome).value);
      var rep := Inspected(filepath, outcome).value;
      && rep.width >= 0.0 && rep.height >= 0.0 && rep.depth >= 0.0
      && rep.maxDim == Max3(rep.width, rep.height, rep.depth)
      && (exists b: Box :: Dims(b) == Vec3(rep.width, rep.height, rep.depth) && forall c :: c in pts ==> Inside(c, b))
      && forall b: Box :: (forall c :: c in pts ==> Inside(c, b)) ==>
           Dims(b).x >= rep.width && Dims(b).y >= rep.height && Dims(b).z >= rep.depth
  {
    ExtentsOfCorners(MeshCorners(ImportModel(NameOf(filepath), outcome).value));
  }

  /** The extents of the folded box of some corners: realised by a box holding them all, and no larger than any such box. */
  lemma ExtentsOfCorners(pts: seq<Vec3>)
    requires BoundsOf(pts).Some?
    ensures var d := Dims(BoundsOf(pts).value);
      && d.x >= 0.0 && d.y >= 0.0 && d.z >= 0.0
      && (exists b: Box :: Dims(b) == d && forall c :: c in pts ==> Inside(c, b))
      && forall b: Box :: (forall c :: c in pts ==> Inside(c, b)) ==>
           Dims(b).x >= d.x && Dims(b).y >= d.y && Dims(b).z >= d.z
  {
    var bounds := BoundsOf(pts).value;
    BoundsFraming(pts);
    forall c | c in pts ensures Inside(c, bounds) {
      var i :| 0 <= i < |pts| && pts[i] == c;
    }
    forall b: Box | forall c :: c in pts ==> Inside(c, b)
      ensures Dims(b).x >= Dims(bounds).x && Dims(b).y >= Dims(bounds).y && Dims(b).z >= Dims(bounds).z
    {
      forall i | 0 <= i < |pts| ensures Inside(pts[i], b) {
        assert pts[i] in pts;
      }
      BoundsOfSmallest(pts, b);
    }
  }

  /**
    inspect_model: clear the scene, dispatch on the lower-cased extension,
    import, count the meshes while folding their corners into running
    minima and maxima, and return the report, or None on any failure.
  */
  method InspectModel(filepath: string, outcome: ImportOutcome) returns (report: Option<SizeReport>)
    ensures report == Inspected(filepath, outcome)
  {
    var name := NameOf(filepath);
    var imported := ImportModel(name, outcome);
    if imported.None? {
      return None;
    }
    var meshCount, bounds := FoldMeshBounds(imported.value);
    if meshCount == 0 {
      return None;
    }
    var d := Dims(bounds.value);
    report := Some(SizeReport(name, d.x, d.y, d.z, Max3(d.x, d.y, d.z)));
  }

  /** The results that exist, in path order: the list main builds with `if result: results.append(result)`. */
  function Kept(paths: seq<string>, inspect: string -> Option<SizeReport>): seq<SizeReport>
    decreases |paths|
  {
    if paths == [] then []
    else
      var last := paths[|paths| - 1];
      Kept(paths[..|paths| - 1], inspect) + (match inspect(last) case None => [] case Some(r) => [r])
  }

  /** The reports of the paths that produced one, in argument order. */
  function Reports(paths: seq<string>, importer: string -> ImportOutcome): seq<SizeReport> {
    Kept(paths, p => Inspected(p, importer(p)))
  }

  /** At most one report per path. */
  lemma {:induction false} KeptLength(paths: seq<string>, inspect: string -> Option<SizeReport>)
    ensures |Kept(paths, inspect)| <= |paths|
    decreases |paths|
  {
    if paths != [] {
      KeptLength(paths[..|paths| - 1], inspect);
    }
  }

  /** Each kept report is the result of one of the paths. */
  lemma {:induction false} KeptSound(paths: seq<string>, inspect: string -> Option<SizeReport>)
    ensures forall r :: r in Kept(paths, inspect) ==> exists p :: p in paths && inspect(p) == Some(r)
    decreases |paths|
  {
    if paths != [] {
      var init := paths[..|paths| - 1];
      var last := paths[|paths| - 1];
      KeptSound(init, inspect);
      assert last in paths;
      forall r | r in Kept(paths, inspect) ensures exists p :: p in paths && inspect(p) == Some(r) {
        if r in Kept(init, inspect) {
          var p :| p in init && inspect(p) == Some(r);
          assert p in paths;
        }
      }
    }
  }

  /** Each path with a result contributes it. */
  lemma {:induction false} KeptComplete(paths: seq<string>, inspect: string -> Option<SizeReport>)
    ensures forall p :: p in paths && inspect(p).Some? ==> inspect(p).value in Kept(paths, inspect)
    decreases |paths|
  {
    if paths != [] {
      var init := paths[..|paths| - 1];
      KeptComplete(init, inspect);
      assert paths == init + [paths[|paths| - 1]];
    }
  }

  /**
    The reports are exactly the successful inspections, at most one per
    path: each comes from one of the paths, and each path that inspects
    successfully contributes its report.
  */
  lemma ReportsSpec(paths: seq<string>, importer: string -> ImportOutcome)
    ensures |Reports(paths, importer)| <= |paths|
    ensures forall r :: r in Reports(paths, importer) ==>
      exists p :: p in paths && Inspected(p, importer(p)) == Some(r)
    ensures forall p :: p in paths && Inspected(p, importer(p)).Some? ==>
      Inspected(p, importer(p)).value in Reports(paths, importer)
  {
    var inspect := p => Inspected(p, importer(p));
    KeptLength(paths, inspect);
    KeptSound(paths, inspect);
    KeptComplete(paths, inspect);
  }

  /** Sum of the largest dimensions of the reports. */
  function SumMax(rs: seq<SizeReport>): real
    decreases |rs|
  {
    if rs == [] then 0.0 else SumMax(rs[..|rs| - 1]) + rs[|rs| - 1].maxDim
  }

  /** The average of the largest dimensions, when there is at least one report. */
  function Average(rs: seq<SizeReport>): Option<real> {
    if rs == [] then None else Some(SumMax(rs) / |rs| as real)
  }

  /** The index of the first "--" in the arguments, if any. */
  function FirstDashes(argv: seq<string>): (r: Option<nat>)
    ensures r.Some? ==> r.value < |argv| && argv[r.value] == "--" && "--" !in argv[..r.value]
    ensures r.None? ==> "--" !in argv
    decreases |argv|
  {
    if argv == [] then None
    else if argv[0] == "--" then Some(0)
    else
      match FirstDashes(argv[1..])
      case None => None
      case Some(i) => assert argv[..i + 1] == [argv[0]] + argv[1..][..i]; Some(i + 1)
  }

  /** main as a value. */
  function InspectOutcome(argv: seq<string>, importer: string -> ImportOutcome): InspectRun {
    match FirstDashes(argv)
    case None => Usage
    case Some(i) =>
      var paths := argv[i + 1..];
      if paths == [] then NoPaths
      else
        var rs := Reports(paths, importer);
        Summary(rs, Average(rs))
  }

  /**
    Without "--" main only prints usage; with nothing after the first "--" it
    reports the error; otherwise it inspects exactly the arguments after the
    first "--", and an average is given exactly when some report exists.
  */
  lemma InspectOutcomeSpec(argv: seq<string>, importer: string -> ImportOutcome)
    ensures InspectOutcome(argv, importer) == Usage <==> "--" !in argv
    ensures InspectOutcome(argv, importer) == NoPaths <==>
      exists i :: 0 <= i < |argv| && argv[i] == "--" && "--" !in argv[..i] && i == |argv| - 1
    ensures InspectOutcome(argv, importer).Summary? ==>
      exists i :: 0 <= i < |argv| && argv[i] == "--" && "--" !in argv[..i]
        && InspectOutcome(argv, importer).reports == Reports(argv[i + 1..], importer)
    ensures InspectOutcome(argv, importer).Summary? ==>
      (InspectOutcome(argv, importer).average.Some? <==> InspectOutcome(argv, importer).reports != [])
  {
    match FirstDashes(argv)
    case None =>
      assert InspectOutcome(argv, importer) == Usage;
    case Some(i) =>
      assert argv[i] in argv;
      forall j | 0 <= j < |argv| && argv[j] == "--" && "--" !in argv[..j] ensures j == i {
        FirstIsUnique(argv, i, j);
      }
      var paths := argv[i + 1..];
      if paths == [] {
        assert InspectOutcome(argv, importer) == NoPaths;
      } else {
        var rs := Reports(paths, importer);
        assert InspectOutcome(argv, importer) == Summary(rs, Average(rs));
      }
  }

  /** Two positions that both hold the first "--" are the same position. */
  lemma FirstIsUnique(argv: seq<string>, i: int, j: int)
    requires 0 <= i < |argv| && argv[i] == "--" && "--" !in argv[..i]
    requires 0 <= j < |argv| && argv[j] == "--" && "--" !in argv[..j]
    ensures i == j
  {
    assert forall k | 0 <= k < j :: argv[k] in argv[..j];
    assert forall k | 0 <= k < i :: argv[k] in argv[..i];
  }

  /** A sum of terms each above a bound is above the count times the bound. */
  lemma {:induction false} SumAbove(rs: seq<SizeReport>, a: real)
    requires forall i :: 0 <= i < |rs| ==> rs[i].maxDim > a
    ensures rs != [] ==> SumMax(rs) > |rs| as real * a
    ensures SumMax(rs) >= |rs| as real * a
    decreases |rs|
  {
    if rs != [] {
      SumAbove(rs[..|rs| - 1], a);
    }
  }

  /** A sum of terms each below a bound is below the count times the bound. */
  lemma {:induction false} SumBelow(rs: seq<SizeReport>, a: real)
    requires forall i :: 0 <= i < |rs| ==> rs[i].maxDim < a
    ensures rs != [] ==> SumMax(rs) < |rs| as real * a
    ensures SumMax(rs) <= |rs| as real * a
    decreases |rs|
  {
    if rs != [] {
      SumBelow(rs[..|rs| - 1], a);
    }
  }

  /**
    The average lies between the smallest and the largest of the maxima: some
    report is at least the average and some report is at most it. When every
    maximum is non-negative, so is the average.
  */
  lemma AverageBetween(rs: seq<SizeReport>)
    requires rs != []
    ensures var avg := Average(rs).value;
      && (exists i :: 0 <= i < |rs| && rs[i].maxDim >= avg)
      && (exists i :: 0 <= i < |rs| && rs[i].maxDim <= avg)
      && ((forall i :: 0 <= i < |rs| ==> rs[i].maxDim >= 0.0) ==> avg >= 0.0)
  {
    var n := |rs| as real;
    var avg := SumMax(rs) / n;
    assert SumMax(rs) == n * avg;
    if forall i :: 0 <= i < |rs| ==> rs[i].maxDim < avg {
      SumBelow(rs, avg);
    }
    if forall i :: 0 <= i < |rs| ==> rs[i].maxDim > avg {
      SumAbove(rs, avg);
    }
  }

  /** Every report's maximum is non-negative, so the average is too. */
  lemma ReportsNonNegative(paths: seq<string>, importer: string -> ImportOutcome)
    ensures forall i :: 0 <= i < |Reports(paths, importer)| ==> Reports(paths, importer)[i].maxDim >= 0.0
  {
    var rs := Reports(paths, importer);
    ReportsSpec(paths, importer);
    forall i | 0 <= i < |rs| ensures rs[i].maxDim >= 0.0 {
      assert rs[i] in rs;
      var p :| p in paths && Inspected(p, importer(p)) == Some(rs[i]);
      InspectedExtents(p, importer(p));
    }
  }

  /** The loop of main: inspect each path in order, keeping the reports that exist. */
  method CollectReports(paths: seq<string>, importer: string -> ImportOutcome) returns (results: seq<SizeReport>)
    ensures results == Reports(paths, importer)
  {
    results := [];
    for i := 0 to |paths|
      invariant results == Reports(paths[..i], importer)
    {
      var result := InspectModel(paths[i], importer(paths[i]));
      assert paths[..i + 1][..i] == paths[..i];
      if result.Some? {
        results := results + [result.value];
      }
    }
    assert paths[..|paths|] == paths;
  }

  /** sum(r['max'] for r in results). */
  method SumOfMaxima(results: seq<SizeReport>) returns (total: real)
    ensures total == SumMax(results)
  {
    total := 0.0;
    for j := 0 to |results|
      invariant total == SumMax(results[..j])
    {
      assert results[..j + 1][..j] == results[..j];
      total := total + results[j].maxDim;
    }
    assert results[..|results|] == results;
  }

  /**
    main: take the arguments after the first "--", inspect each path in
    order keeping the reports that exist, then average the largest
    dimensions when there is at least one report.
  */
  method InspectMain(argv: seq<string>, importer: string -> ImportOutcome) returns (run: InspectRun)
    ensures run == InspectOutcome(argv, importer)
  {
    var dashes := FirstDashes(argv);
    if dashes.None? {
      return Usage;
    }
    var paths := argv[dashes.value + 1..];
    if paths == [] {
      return NoPaths;
    }
    var results := CollectReports(paths, importer);
    if results == [] {
      return Summary(results, None);
    }
    var total := SumOfMaxima(results);
    run := Summary(results, Some(total / |results| as real));
  }
}
