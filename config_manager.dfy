/**
 * ConfigManager's string handling and mapper registry: the folder name is
 * normalised to start with '/', resource paths are built from it, the
 * pre-processor input file is read from a header comment, its output file
 * is named after it, and loaded mappers are kept under lower-cased file names.
 */
module ConfigManagers {
  import opened Wrappers
  import opened Text

  /** The header marker that introduces a pre-processor input file name. */
  const PreProcessorInputMarker := "PRE-PROCESSOR-INPUT "

  /** The folder name as stored: a leading '/' is added when missing; an empty name throws on charAt(0). */
  function NormalizeFolderName(folderName: string): (r: Result<string, Exception>)
    ensures |folderName| == 0 <==> r.Failure?
    ensures r.Failure? ==> r.error == StringIndexOutOfBoundsException
    ensures r.Success? ==> StartsWith(r.value, "/")
    ensures r.Success? && folderName[0] == '/' ==> r.value == folderName
    ensures r.Success? && folderName[0] != '/' ==> r.value == "/" + folderName
  {
    if |folderName| == 0 then Failure(StringIndexOutOfBoundsException)
    else if folderName[0] == '/' then Success(folderName)
    else Success("/" + folderName)
  }

  /** Normalising twice is normalising once. */
  lemma NormalizeFolderNameIdempotent(folderName: string)
    requires NormalizeFolderName(folderName).Success?
    ensures NormalizeFolderName(NormalizeFolderName(folderName).value) == NormalizeFolderName(folderName)
  {
  }

  /** getPluginResourcePath: the folder name without its first character, a '/', and the file name. */
  function PluginResourcePath(folderName: string, fileName: string): (r: string)
    requires |folderName| >= 1
    ensures |r| == |folderName| + |fileName|
  {
    folderName[1..] + "/" + fileName
  }

  /** The resource path of a configured folder is the folder as given, without a leading '/', then the file. */
  lemma ResourcePathOfConfiguredFolder(folderName: string, fileName: string)
    requires NormalizeFolderName(folderName).Success?
    ensures PluginResourcePath(NormalizeFolderName(folderName).value, fileName) ==
      (if folderName[0] == '/' then folderName[1..] else folderName) + "/" + fileName
  {
    if folderName[0] != '/' {
      assert ("/" + folderName)[1..] == folderName;
    }
  }

  /** Whether a character ends the pre-processor input argument. */
  predicate IsTerminator(c: char) {
    c == ' ' || c == '\n'
  }

  /** The index of the first terminator at or after `from`, or the header's length when there is none. */
  function FirstTerminator(header: string, from: nat): (r: nat)
    requires from <= |header|
    ensures from <= r <= |header|
    ensures forall k :: from <= k < r ==> !IsTerminator(header[k])
    ensures r < |header| ==> IsTerminator(header[r])
    decreases |header| - from
  {
    if from == |header| || IsTerminator(header[from]) then from else FirstTerminator(header, from + 1)
  }

  /**
   * parsePreProcessorFileName: null without the marker; otherwise the text
   * after the first marker up to the first space or line break. Without
   * such a terminator the substring runs one past the header and throws; an
   * argument not ending in ".txt" (the empty one included) is null.
   */
  function PreProcessorFileName(header: string): (r: Result<Option<string>, Exception>)
    ensures IndexOf(header, PreProcessorInputMarker) < 0 ==> r == Success(None)
    ensures r.Failure? ==> r.error == StringIndexOutOfBoundsException
    ensures r.Success? && r.value.Some? ==>
      var begin := IndexOf(header, PreProcessorInputMarker) + |PreProcessorInputMarker|;
      var name := r.value.value;
      EndsWith(name, ".txt") && begin + |name| < |header| &&
      header[begin..begin + |name|] == name && IsTerminator(header[begin + |name|]) &&
      forall k :: 0 <= k < |name| ==> !IsTerminator(name[k])
  {
    var marker := IndexOf(header, PreProcessorInputMarker);
    if marker < 0 then Success(None)
    else
      var begin := marker + |PreProcessorInputMarker|;
      var end := FirstTerminator(header, begin);
      if end == |header| then Failure(StringIndexOutOfBoundsException)
      else if EndsWith(header[begin..end], ".txt") then Success(Some(header[begin..end]))
      else Success(None)
  }

  /** The scan of parsePreProcessorFileName, stepping back one place when it meets a terminator. */
  method ParsePreProcessorFileName(header: string) returns (r: Result<Option<string>, Exception>)
    ensures r == PreProcessorFileName(header)
  {
    var index := IndexOf(header, PreProcessorInputMarker);
    if index < 0 {
      return Success(None);
    }
    index := index + |PreProcessorInputMarker|;
    var begin := index;
    while index < |header|
      invariant begin <= index <= |header|
      invariant FirstTerminator(header, begin) == FirstTerminator(header, index)
    {
      if IsTerminator(header[index]) {
        index := index - 1;
        break;
      }
      index := index + 1;
    }
    if index + 1 > |header| {
      return Failure(StringIndexOutOfBoundsException);
    }
    var argument := header[begin..index + 1];
    if !EndsWith(argument, ".txt") {
      return Success(None);
    }
    return Success(Some(argument));
  }

  /** A header that starts with the marker and a ".txt" name followed by a terminator yields that name. */
  lemma PreProcessorFileNameFound(name: string, terminator: char, rest: string)
    requires EndsWith(name, ".txt") && IsTerminator(terminator)
    requires forall k :: 0 <= k < |name| ==> !IsTerminator(name[k])
    ensures PreProcessorFileName(PreProcessorInputMarker + name + [terminator] + rest) == Success(Some(name))
  {
    var header := PreProcessorInputMarker + name + [terminator] + rest;
    assert OccursAt(header, PreProcessorInputMarker, 0) by {
      assert header[..|PreProcessorInputMarker|] == PreProcessorInputMarker;
    }
    var begin := |PreProcessorInputMarker|;
    assert header[begin..begin + |name|] == name;
    assert FirstTerminator(header, begin) == begin + |name| by {
      FirstTerminatorIsFirst(header, begin, begin + |name|);
    }
  }

  /** The first terminator is the earliest terminator at or after `from`. */
  lemma {:induction false} FirstTerminatorIsFirst(header: string, from: nat, j: nat)
    requires from <= j < |header| && IsTerminator(header[j])
    requires forall k :: from <= k < j ==> !IsTerminator(header[k])
    ensures FirstTerminator(header, from) == j
    decreases j - from
  {
    if from < j {
      FirstTerminatorIsFirst(header, from + 1, j);
    }
  }

  /** A header that ends right after the file name, with no terminator, throws. */
  lemma PreProcessorFileNameAtEndThrows(name: string)
    requires forall k :: 0 <= k < |name| ==> !IsTerminator(name[k])
    ensures PreProcessorFileName(PreProcessorInputMarker + name).Failure?
  {
    var header := PreProcessorInputMarker + name;
    assert OccursAt(header, PreProcessorInputMarker, 0) by {
      assert header[..|PreProcessorInputMarker|] == PreProcessorInputMarker;
    }
    assert forall k :: |PreProcessorInputMarker| <= k < |header| ==> header[k] == name[k - |PreProcessorInputMarker|];
  }

  /**
   * The pre-processed output file: "result.", the input name up to its last
   * '.', and ".yml"; substring(0, -1) throws when the name has no '.'.
   */
  function OutputFileName(inputName: string): (r: Result<string, Exception>)
    ensures r.Failure? <==> forall k :: 0 <= k < |inputName| ==> inputName[k] != '.'
    ensures r.Failure? ==> r.error == StringIndexOutOfBoundsException
    ensures r.Success? ==> StartsWith(r.value, "result.") && EndsWith(r.value, ".yml")
  {
    var dot := LastIndexOf(inputName, '.');
    if dot < 0 then Failure(StringIndexOutOfBoundsException)
    else Success("result." + inputName[..dot] + ".yml")
  }

  /** For a ".txt" input, as parsePreProcessorFileName returns them, the ".txt" is replaced by ".yml". */
  lemma OutputFileNameOfTxt(inputName: string)
    requires EndsWith(inputName, ".txt")
    ensures OutputFileName(inputName) == Success("result." + inputName[..|inputName| - 4] + ".yml")
  {
    assert inputName[|inputName| - 4] == '.' by {
      assert inputName[|inputName| - 4..][0] == ".txt"[0];
    }
    assert forall i :: |inputName| - 4 < i < |inputName| ==> inputName[i] == inputName[|inputName| - 4..][i - (|inputName| - 4)];
  }

  /** The configuration types the mapper asks about. */
  datatype JavaClass = BukkitEvaluableClass | ItemBuildableClass | ObjectClass | ItemStackSectionClass | OtherClass(name: string)

  /** getRequiredTypeFor: an evaluable is read as any object, an item buildable as an item section, anything else has no requirement. */
  function RequiredTypeFor(kind: JavaClass): (r: Option<JavaClass>)
    ensures kind == BukkitEvaluableClass <==> r == Some(ObjectClass)
    ensures kind == ItemBuildableClass <==> r == Some(ItemStackSectionClass)
    ensures r.None? <==> kind != BukkitEvaluableClass && kind != ItemBuildableClass
  {
    if kind == BukkitEvaluableClass then Some(ObjectClass)
    else if kind == ItemBuildableClass then Some(ItemStackSectionClass)
    else None
  }

  /** A loaded configuration's mapper, identified by the file it was loaded from. */
  datatype ConfigMapper = ConfigMapper(fileName: string)

  /** getMapper on a registry: the mapper stored under the lower-cased name, or FileNotFoundException. */
  function MapperIn(mappers: map<string, ConfigMapper>, fileName: string): (r: Result<ConfigMapper, Exception>)
    ensures r.Failure? <==> Lower(fileName) !in mappers
    ensures r.Failure? ==> r.error == FileNotFoundException
    ensures r.Success? ==> r.value == mappers[Lower(fileName)]
  {
    if Lower(fileName) in mappers then Success(mappers[Lower(fileName)]) else Failure(FileNotFoundException)
  }

  /** Lower-casing twice is lower-casing once. */
  lemma {:induction false} LowerIdempotent(s: string)
    ensures Lower(Lower(s)) == Lower(s)
    decreases |s|
  {
    if |s| > 0 {
      LowerIdempotent(s[1..]);
      assert Lower(s) == [LowerChar(s[0])] + Lower(s[1..]);
    }
  }

  /** Lookups ignore case: names that lower-case alike find the same mapper. */
  lemma MapperInIgnoresCase(mappers: map<string, ConfigMapper>, a: string, b: string)
    requires Lower(a) == Lower(b)
    ensures MapperIn(mappers, a) == MapperIn(mappers, b)
  {
  }

  /** The ConfigManager state kept here: the normalised folder name and the mappers by lower-cased file name. */
  class ConfigManager {
    const folderName: string
    var mappers: map<string, ConfigMapper>

    /** The invariant the constructor establishes and nothing breaks: the folder name starts with '/'. */
    predicate Valid()
      reads this
    {
      StartsWith(folderName, "/") && forall k :: k in mappers ==> Lower(k) == k
    }

    constructor(normalizedFolderName: string)
      requires StartsWith(normalizedFolderName, "/")
      ensures Valid() && folderName == normalizedFolderName && mappers == map[]
    {
      folderName := normalizedFolderName;
      mappers := map[];
    }

    /** getPluginResourcePath for this manager. */
    function ResourcePath(fileName: string): (r: string)
      requires Valid()
      reads this
      ensures r == folderName[1..] + "/" + fileName
    {
      PluginResourcePath(folderName, fileName)
    }

    /** The last step of loadConfig: the mapper is stored under the lower-cased file name. */
    method Register(fileName: string, mapper: ConfigMapper)
      requires Valid()
      modifies this
      ensures Valid() && mappers == old(mappers)[Lower(fileName) := mapper]
    {
      LowerIdempotent(fileName);
      mappers := mappers[Lower(fileName) := mapper];
    }

    /** getMapper: case-insensitive lookup, FileNotFoundException when absent. */
    method GetMapper(fileName: string) returns (r: Result<ConfigMapper, Exception>)
      ensures r == MapperIn(mappers, fileName)
    {
      var key := Lower(fileName);
      if key !in mappers {
        return Failure(FileNotFoundException);
      }
      return Success(mappers[key]);
    }
  }

  /** The constructor's normalisation: an empty folder name throws before any manager exists. */
  method NewConfigManager(folderName: string) returns (r: Result<ConfigManager, Exception>)
    ensures r.Failure? <==> NormalizeFolderName(folderName).Failure?
    ensures r.Failure? ==> r.error == NormalizeFolderName(folderName).error
    ensures r.Success? ==>
      fresh(r.value) && r.value.Valid() &&
      r.value.folderName == NormalizeFolderName(folderName).value && r.value.mappers == map[]
  {
    var normalized := NormalizeFolderName(folderName);
    if normalized.Failure? {
      return Failure(normalized.error);
    }
    var manager := new ConfigManager(normalized.value);
    return Success(manager);
  }

  /** After registering under one spelling, every spelling that lower-cases alike finds the mapper. */
  lemma RegisteredIsFound(mappers: map<string, ConfigMapper>, stored: string, asked: string, mapper: ConfigMapper)
    requires Lower(stored) == Lower(asked)
    ensures MapperIn(mappers[Lower(stored) := mapper], asked) == Success(mapper)
  {
  }
}
