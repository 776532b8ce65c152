/** The artifact directory and the call that writes to it.

    `save_object(file_path, object)` pickles an object to a path, creating
    the directory and overwriting any earlier file, with no version tag. The
    directory is modelled as a map from path to the object last saved there;
    serialisation itself is not modelled. */
module Artifacts {
  import opened Errors

  class ArtifactStore<T> {
    /** Path to the object most recently pickled there. */
    var files: map<string, T>

    constructor ()
      ensures files == map[]
    {
      files := map[];
    }

    /** `save_object`: overwrites what was at `path`, leaves every other path alone. */
    method Save(path: string, obj: T)
      modifies this
      ensures files == old(files)[path := obj]
      ensures Load(path) == Ok(obj)
      ensures forall p :: p != path ==> Load(p) == old(Load(p))
    {
      files := files[path := obj];
    }

    /** `pickle.load` of `path`: FileNotFoundError when nothing was saved there. */
    function Load(path: string): (r: Result<T>)
      reads this
      ensures r.Ok? <==> path in files
    {
      if path in files then Ok(files[path])
      else Err(Failure("No such file or directory: " + path))
    }
  }

  /** The parameter names of `save_object` (src/utils.py). */
  const SaveObjectParameters: seq<string> := ["file_path", "object"]

  /** Position of `x` in `s`. */
  function IndexOf(s: seq<string>, x: string): (i: nat)
    requires x in s
    ensures i < |s| && s[i] == x
  {
    if s[0] == x then 0 else 1 + IndexOf(s[1..], x)
  }

  /** Binds a call made only with keyword arguments to a Python function whose
      parameters have no default values. A keyword that names no parameter
      raises TypeError ("unexpected keyword argument"), and so does a
      parameter that no keyword supplies ("missing required argument").
      On success each parameter is bound to the position of its keyword. */
  function BindKeywords(parameters: seq<string>, keywords: seq<string>): (r: Result<map<string, nat>>)
    ensures r.Ok? <==> (forall k :: k in keywords ==> k in parameters) && (forall p :: p in parameters ==> p in keywords)
    ensures r.Ok? ==> r.value.Keys == set p | p in parameters
    ensures r.Ok? ==> forall p :: p in r.value ==> r.value[p] < |keywords| && keywords[r.value[p]] == p
  {
    if exists k :: k in keywords && k !in parameters then
      Err(Failure("got an unexpected keyword argument"))
    else if exists p :: p in parameters && p !in keywords then
      Err(Failure("missing a required argument"))
    else
      Ok(map p | p in parameters :: IndexOf(keywords, p))
  }

  /** As written, the model trainer calls `save_object(file_path=..., obj=...)`;
      `obj` names no parameter, so the call raises before anything is saved. */
  lemma SaveObjectCallAsWritten()
    ensures BindKeywords(SaveObjectParameters, ["file_path", "obj"]).Err?
  {
    assert "obj" in ["file_path", "obj"];
  }

  /** The call with `object=`, as the transformation step writes it, binds the
      path and the object to the intended parameters. */
  lemma SaveObjectCallCorrected()
    ensures BindKeywords(SaveObjectParameters, ["file_path", "object"]) == Ok(map["file_path" := 0, "object" := 1])
  {
    var b := BindKeywords(SaveObjectParameters, ["file_path", "object"]);
    assert b.Ok?;
    assert b.value.Keys == {"file_path", "object"};
    assert IndexOf(["file_path", "object"], "object") == 1 by {
      assert ["file_path", "object"][1..] == ["object"];
    }
    assert b.value["file_path"] == 0 && b.value["object"] == 1;
    var expected := map["file_path" := 0, "object" := 1];
    assert expected.Keys == {"file_path", "object"};
    assert b.value == expected;
  }
}
