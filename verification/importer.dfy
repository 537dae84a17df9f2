/**
  The import step shared by the batch renderer and the size inspector: the
  lower-cased file extension picks one of Blender's importers, and the
  importer either raises or adds objects to the scene.
*/
module Importer {
  import opened Wrappers
  import opened Geometry
  import opened Paths

  /** What Blender's importer does with one file: raise, or load these objects. */
  datatype ImportOutcome = Raises | Loads(objects: seq<SceneObject>)

  /** The import operator an extension dispatches to. */
  datatype Importer = GltfImporter | ObjImporter | FbxImporter

  /** The dispatch on the lower-cased extension; None for an unsupported one. */
  function ImporterFor(ext: string): Option<Importer> {
    if ext == ".gltf" || ext == ".glb" then Some(GltfImporter)
    else if ext == ".obj" then Some(ObjImporter)
    else if ext == ".fbx" then Some(FbxImporter)
    else None
  }

  /** The objects an import of file `name` adds, or None when it fails. */
  function ImportModel(name: string, outcome: ImportOutcome): Option<seq<SceneObject>> {
    match ImporterFor(Lower(Suffix(name)))
    case None => None
    case Some(_) => if outcome.Raises? then None else Some(outcome.objects)
  }

  /**
    An import succeeds exactly when the importer does not raise and the
    extension, compared after lower-casing, is one of .gltf, .glb, .obj, .fbx;
    it then yields what the importer loaded.
  */
  lemma ImportModelSpec(name: string, outcome: ImportOutcome)
    ensures ImportModel(name, outcome).Some? <==>
      outcome.Loads? && Lower(Suffix(name)) in {".gltf", ".glb", ".obj", ".fbx"}
    ensures ImportModel(name, outcome).Some? ==> ImportModel(name, outcome).value == outcome.objects
  {
  }

  /** The extension check ignores case: a name ending ".OBJ" imports like one ending ".obj". */
  lemma ImportIgnoresCase(name: string, outcome: ImportOutcome)
    requires |name| > 0
    ensures ImportModel(WithSuffix(name, ".OBJ"), outcome) == ImportModel(WithSuffix(name, ".obj"), outcome)
  {
    SuffixOfWithSuffix(name, ".OBJ");
    SuffixOfWithSuffix(name, ".obj");
    LowerObj();
  }

  /** Both spellings of the extension lower-case to ".obj". */
  lemma LowerObj()
    ensures Lower(".OBJ") == ".obj" && Lower(".obj") == ".obj"
  {
    assert Lower(".OBJ") == ".obj";
  }
}
