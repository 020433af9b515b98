/**
 * The recipe entity and the guards around loading it from and saving it to
 * a file.  The file system is an abstract map from paths to documents; what
 * a document holds after YAML parsing is part of the document itself.
 */
module Recipes {
  import opened Wrappers
  import opened Steps

  /** A recipe: its title, its description and its ordered steps. */
  datatype Recipe = Recipe(title: string, description: string, steps: seq<Step>) {
    /** The stored title: putting it back leaves the recipe as it is. */
    function GetTitle(): (t: string)
      ensures this.(title := t) == this
    {
      title
    }

    /** The stored description: putting it back leaves the recipe as it is. */
    function GetDescription(): (d: string)
      ensures this.(description := d) == this
    {
      description
    }

    /** The stored steps, in order: putting them back leaves the recipe as it is. */
    function GetSteps(): (s: seq<Step>)
      ensures this.(steps := s) == this
    {
      steps
    }
  }

  /** The getters expose the whole of a recipe: two recipes they cannot tell apart are equal. */
  lemma GettersDetermineRecipe(a: Recipe, b: Recipe)
    ensures a.GetTitle() == b.GetTitle() && a.GetDescription() == b.GetDescription() && a.GetSteps() == b.GetSteps()
            <==> a == b
  {
  }

  /** What reading a file produces: a recipe YAML parses to, text it cannot parse, or a read error. */
  datatype Document = YamlRecipe(recipe: Recipe) | Malformed(parseError: string) | Unreadable(ioError: string)

  type FileSystem = map<string, Document>

  /** What one attempt to serialise and write a recipe does. */
  datatype WriteOutcome = Written | WriteFailed(error: string)

  const NotYamlError: string := "Provided recipe file must be a YAML file"
  const NotFoundPrefix: string := "Unable to locate file at: "
  const ExistsPrefix: string := "Another file already exists at: "

  predicate EndsWith(s: string, suffix: string) {
    |suffix| <= |s| && s[|s| - |suffix|..] == suffix
  }

  /** A string ends with `suffix` exactly when it is some stem followed by `suffix`. */
  lemma EndsWithIffStem(s: string, suffix: string)
    ensures EndsWith(s, suffix) <==> exists stem: string :: s == stem + suffix
  {
    if EndsWith(s, suffix) {
      var stem := s[..|s| - |suffix|];
      assert s == stem + suffix;
    }
    if exists stem: string :: s == stem + suffix {
      var stem: string :| s == stem + suffix;
      assert s[|s| - |suffix|..] == suffix;
    }
  }

  /** The file name carries a YAML extension: it is some stem followed by ".yaml" or ".yml". */
  function IsYaml(path: string): (b: bool)
    ensures b <==> exists stem: string :: path == stem + ".yaml" || path == stem + ".yml"
  {
    EndsWithIffStem(path, ".yaml");
    EndsWithIffStem(path, ".yml");
    EndsWith(path, ".yaml") || EndsWith(path, ".yml")
  }

  /**
   * Loads a recipe: a non-YAML name is refused before the file system is
   * consulted, a missing file is reported with its path, and otherwise the
   * document is read and parsed.
   */
  function FromFile(files: FileSystem, path: string): (r: Result<Recipe, string>)
    ensures !IsYaml(path) ==> r == Failure(NotYamlError)
    ensures IsYaml(path) && path !in files ==> r == Failure(NotFoundPrefix + path)
    ensures r.Success? <==> IsYaml(path) && path in files && files[path].YamlRecipe?
    ensures r.Success? ==> r.value == files[path].recipe
    ensures IsYaml(path) && path in files && files[path].Malformed? ==> r == Failure(files[path].parseError)
    ensures IsYaml(path) && path in files && files[path].Unreadable? ==> r == Failure(files[path].ioError)
  {
    if !IsYaml(path) then Failure(NotYamlError)
    else if path !in files then Failure(NotFoundPrefix + path)
    else match files[path]
      case YamlRecipe(recipe) => Success(recipe)
      case Malformed(e) => Failure(e)
      case Unreadable(e) => Failure(e)
  }

  /** The file system a recipe is saved to and loaded from. */
  class Disk {
    var files: FileSystem

    constructor (files: FileSystem)
      ensures this.files == files
    {
      this.files := files;
    }

    /**
     * Saves `recipe` at `path`: refuses a non-YAML name and an occupied
     * path without touching the file system, and otherwise writes the one
     * file at `path`, after which loading it gives the recipe back.
     */
    method ToFile(recipe: Recipe, path: string, write: WriteOutcome) returns (r: Outcome<string>)
      modifies this
      ensures !IsYaml(path) ==> r == Fail(NotYamlError)
      ensures IsYaml(path) && path in old(files) ==> r == Fail(ExistsPrefix + path)
      ensures IsYaml(path) && path !in old(files) && write.WriteFailed? ==> r == Fail(write.error)
      ensures r.Pass? <==> IsYaml(path) && path !in old(files) && write.Written?
      ensures r.Fail? ==> files == old(files)
      ensures r.Pass? ==> files == old(files)[path := YamlRecipe(recipe)]
      ensures r.Pass? ==> FromFile(files, path) == Success(recipe)
      ensures forall p :: p != path ==> (p in files <==> p in old(files)) && (p in files ==> files[p] == old(files)[p])
    {
      if !IsYaml(path) {
        return Fail(NotYamlError);
      }
      if path in files {
        return Fail(ExistsPrefix + path);
      }
      match write
      case Written =>
        files := files[path := YamlRecipe(recipe)];
        r := Pass;
      case WriteFailed(e) =>
        r := Fail(e);
    }
  }
}
