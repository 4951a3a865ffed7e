/**
 * `FileClassificationElement`: a classification result stored in one file per
 * (type name, uuid) key, under a save directory that may be sharded by the
 * uuid's characters. The element itself is an immutable value; the file system
 * it reads and writes is the `Disk` object.
 */
module FileClassification {
  import opened Wrappers
  import opened PosixPath
  import opened StringUtils
  import opened Classification

  /** The backend needs nothing beyond the file system, so it is always usable. */
  function IsUsable(): (usable: bool)
    ensures usable
  {
    true
  }

  /**
   * Whether `subdir_split` asks for sharding: it must be truthy (set and
   * non-zero) and positive.
   */
  predicate Sharded(subdirSplit: Option<int>)
    ensures subdirSplit == None || subdirSplit == Some(0) ==> !Sharded(subdirSplit)
    ensures Sharded(subdirSplit) <==> subdirSplit.Some? && subdirSplit.value >= 1
  {
    subdirSplit.Some? && subdirSplit.value > 0
  }

  /** The file name of a key: the type name, then the uuid with its hyphens kept. */
  function FileName(typeName: string, uuid: string): (name: string)
    ensures |name| == |typeName| + |uuid| + 23
    ensures name[..|typeName|] == typeName && name[|typeName|] == '.'
    ensures name[|typeName| + 1..|typeName| + 1 + |uuid|] == uuid
    ensures name[|typeName| + 1 + |uuid|..] == ".classification.pickle"
  {
    typeName + "." + uuid + ".classification.pickle"
  }

  /** Construction fails when the uuid has fewer characters than shard levels asked for. */
  datatype InitError = TooManySplits(split: int, available: nat)

  /**
   * The file path of a key under an (already absolute) save directory: with
   * sharding, one directory level per segment of the hyphen-free uuid; without,
   * directly in the save directory.
   */
  function FilePath(typeName: string, uuid: string, saveDir: string, subdirSplit: Option<int>): (r: Result<string, InitError>)
    ensures r.Failure? <==> Sharded(subdirSplit) && subdirSplit.value > |StripHyphens(uuid)|
  {
    var name := FileName(typeName, uuid);
    if Sharded(subdirSplit) then
      var stripped := StripHyphens(uuid);
      if subdirSplit.value <= |stripped| then
        Success(Join(JoinAll(saveDir, Partition(stripped, subdirSplit.value)), name))
      else
        Failure(TooManySplits(subdirSplit.value, |stripped|))
    else
      Success(Join(saveDir, name))
  }

  /** A constructed element: its key, its configuration and the file it maps to. */
  datatype Element = Element(
    typeName: string,
    uuid: string,
    saveDir: string,
    subdirSplit: Option<int>,
    filepath: string)

  /** The configuration an element exports. */
  datatype Config = Config(saveDir: string, subdirSplit: Option<int>)

  /**
   * `FileClassificationElement(type_name, uuid, save_dir, subdir_split)` run in
   * working directory `cwd`: the save directory is made absolute and the file
   * path derived from it.
   */
  function NewElement(typeName: string, uuid: string, saveDir: string, subdirSplit: Option<int>, cwd: string): (r: Result<Element, InitError>)
    ensures r.Failure? <==> Sharded(subdirSplit) && subdirSplit.value > |StripHyphens(uuid)|
    ensures r.Success? ==> r.value.typeName == typeName && r.value.uuid == uuid && r.value.subdirSplit == subdirSplit
    ensures r.Success? && IsAbsolute(cwd) ==> IsAbsolute(r.value.saveDir)
    ensures r.Success? && IsAbsolute(saveDir) ==> r.value.saveDir == saveDir
    ensures r.Success? ==> r.value.filepath == FilePath(typeName, uuid, r.value.saveDir, subdirSplit).value
  {
    var dir := AbsPath(cwd, saveDir);
    match FilePath(typeName, uuid, dir, subdirSplit)
    case Success(p) => Success(Element(typeName, uuid, dir, subdirSplit, p))
    case Failure(err) => Failure(err)
  }

  /** `get_config`: the absolute save directory and the split count, as given. */
  function GetConfig(e: Element): (c: Config)
    ensures c.saveDir == e.saveDir && c.subdirSplit == e.subdirSplit
  {
    Config(e.saveDir, e.subdirSplit)
  }

  /** Neither the type name nor the uuid contains a separator. */
  predicate PlainKey(typeName: string, uuid: string) {
    '/' !in typeName && '/' !in uuid
  }

  lemma PlainFileName(typeName: string, uuid: string)
    requires PlainKey(typeName, uuid)
    ensures IsPlainName(FileName(typeName, uuid))
  {
  }

  /** Without sharding the file sits directly in the save directory. */
  lemma UnshardedLayout(typeName: string, uuid: string, saveDir: string, subdirSplit: Option<int>)
    requires !Sharded(subdirSplit)
    requires |saveDir| > 0 && PlainKey(typeName, uuid)
    ensures FilePath(typeName, uuid, saveDir, subdirSplit)
         == Success(TrimSlash(saveDir) + ("/" + FileName(typeName, uuid)))
  {
    PlainFileName(typeName, uuid);
    JoinPlain(saveDir, FileName(typeName, uuid));
  }

  /** The segments of a separator-free string are plain path components. */
  lemma PlainSegments(s: string, n: nat)
    requires 0 < n <= |s| && '/' !in s
    ensures forall i :: 0 <= i < n ==> IsPlainName(Partition(s, n)[i])
  {
    var segs := Partition(s, n);
    forall i | 0 <= i < n
      ensures IsPlainName(segs[i])
    {
      if '/' in segs[i] {
        ConcatContains(segs, i, '/');
        assert false;
      }
    }
  }

  /**
   * With sharding into n levels, the file sits n directories below the save
   * directory; the directories are the n segments of the uuid with its hyphens
   * removed, which spell that string when read in order.
   */
  lemma ShardedLayout(typeName: string, uuid: string, saveDir: string, n: nat)
    requires 0 < n <= |StripHyphens(uuid)|
    requires |saveDir| > 0 && PlainKey(typeName, uuid)
    ensures var segs := Partition(StripHyphens(uuid), n);
            && |segs| == n
            && Concat(segs) == StripHyphens(uuid)
            && (forall i :: 0 <= i < n ==> IsPlainName(segs[i]))
            && FilePath(typeName, uuid, saveDir, Some(n))
               == Success((TrimSlash(saveDir) + Slashed(segs)) + ("/" + FileName(typeName, uuid)))
  {
    var stripped := StripHyphens(uuid);
    var segs := Partition(stripped, n);
    var name := FileName(typeName, uuid);
    StripHyphensAddsNothing(uuid, '/');
    PlainSegments(stripped, n);
    JoinAllPlain(saveDir, segs);
    var dir := TrimSlash(saveDir) + Slashed(segs);
    SlashedEndsPlain(segs);
    assert TrimSlash(dir) == dir;
    PlainFileName(typeName, uuid);
    JoinPlain(dir, name);
  }

  /** "/p0/.../pk" with plain parts is non-empty and does not end in a separator. */
  lemma {:induction false} SlashedEndsPlain(parts: seq<string>)
    requires parts != []
    requires forall i :: 0 <= i < |parts| ==> IsPlainName(parts[i])
    ensures var s := Slashed(parts); |s| > 0 && s[|s| - 1] != '/'
    decreases |parts|
  {
    var p := parts[0];
    assert p[|p| - 1] in p;
    if |parts| > 1 {
      assert forall i :: 0 <= i < |parts[1..]| ==> IsPlainName(parts[1..][i]) by {
        forall i | 0 <= i < |parts[1..]| ensures IsPlainName(parts[1..][i]) {
          assert parts[1..][i] == parts[i + 1];
        }
      }
      SlashedEndsPlain(parts[1..]);
    }
  }

  /** A save directory as `abspath` leaves it: absolute, with no trailing separator unless it is the root. */
  predicate IsNormalDir(saveDir: string) {
    IsAbsolute(saveDir) && (saveDir == "/" || saveDir[|saveDir| - 1] != '/')
  }

  /**
   * The directory that holds the file: the save directory itself without
   * sharding, and the innermost shard directory with it. Writing the file
   * needs that directory to exist.
   */
  lemma FileDirectory(typeName: string, uuid: string, saveDir: string, subdirSplit: Option<int>)
    requires FilePath(typeName, uuid, saveDir, subdirSplit).Success?
    requires IsNormalDir(saveDir) && PlainKey(typeName, uuid)
    ensures DirName(FilePath(typeName, uuid, saveDir, subdirSplit).value)
         == if Sharded(subdirSplit)
            then TrimSlash(saveDir) + Slashed(Partition(StripHyphens(uuid), subdirSplit.value))
            else saveDir
  {
    PlainFileName(typeName, uuid);
    if Sharded(subdirSplit) {
      ShardedDirectory(typeName, uuid, saveDir, subdirSplit.value);
    } else {
      UnshardedLayout(typeName, uuid, saveDir, subdirSplit);
      if saveDir != "/" {
        assert TrimSlash(saveDir) == saveDir;
      }
      DirNameOfChild(TrimSlash(saveDir), FileName(typeName, uuid));
    }
  }

  lemma ShardedDirectory(typeName: string, uuid: string, saveDir: string, n: nat)
    requires 0 < n <= |StripHyphens(uuid)|
    requires |saveDir| > 0 && PlainKey(typeName, uuid)
    ensures DirName(FilePath(typeName, uuid, saveDir, Some(n)).value)
         == TrimSlash(saveDir) + Slashed(Partition(StripHyphens(uuid), n))
  {
    var name := FileName(typeName, uuid);
    PlainFileName(typeName, uuid);
    var segs := Partition(StripHyphens(uuid), n);
    ShardedLayout(typeName, uuid, saveDir, n);
    SlashedEndsPlain(segs);
    var dir := TrimSlash(saveDir) + Slashed(segs);
    DirNameOfChild(dir, name);
  }

  /**
   * A type name that is an absolute path discards the save directory and the
   * shard directories altogether: the file is the file name itself, wherever
   * that points.
   */
  lemma AbsoluteTypeNameEscapesSaveDir(typeName: string, uuid: string, saveDir: string, subdirSplit: Option<int>)
    requires IsAbsolute(typeName)
    requires FilePath(typeName, uuid, saveDir, subdirSplit).Success?
    ensures FilePath(typeName, uuid, saveDir, subdirSplit).value == FileName(typeName, uuid)
  {
    assert FileName(typeName, uuid)[0] == typeName[0];
  }

  /** Wherever the file lands, its last path component is the file name. */
  lemma FileIsNamedByKey(typeName: string, uuid: string, saveDir: string, subdirSplit: Option<int>)
    requires FilePath(typeName, uuid, saveDir, subdirSplit).Success?
    requires |saveDir| > 0 && PlainKey(typeName, uuid)
    ensures exists dir :: FilePath(typeName, uuid, saveDir, subdirSplit).value == dir + "/" + FileName(typeName, uuid)
  {
    var name := FileName(typeName, uuid);
    var dir := if Sharded(subdirSplit)
      then TrimSlash(saveDir) + Slashed(Partition(StripHyphens(uuid), subdirSplit.value))
      else TrimSlash(saveDir);
    if Sharded(subdirSplit) {
      ShardedLayout(typeName, uuid, saveDir, subdirSplit.value);
    } else {
      UnshardedLayout(typeName, uuid, saveDir, subdirSplit);
    }
    ConcatAssoc(dir, "/", name);
  }

  /** When two "type.uuid" names differ in where the type ends, the longer type holds a dot. */
  lemma DotInLongerTypeName(t1: string, u1: string, t2: string, u2: string)
    requires FileName(t1, u1) == FileName(t2, u2)
    requires |t1| < |t2|
    ensures t2[|t1|] == '.'
  {
    var f := FileName(t1, u1);
    assert f[|t1|] == '.';
  }

  /** With dot-free type names, a file name determines the key it was made from. */
  lemma FileNameInjective(t1: string, u1: string, t2: string, u2: string)
    requires '.' !in t1 && '.' !in t2
    requires FileName(t1, u1) == FileName(t2, u2)
    ensures t1 == t2 && u1 == u2
  {
    if |t1| < |t2| {
      DotInLongerTypeName(t1, u1, t2, u2);
      assert false;
    } else if |t2| < |t1| {
      DotInLongerTypeName(t2, u2, t1, u1);
      assert false;
    } else {
      var f := FileName(t1, u1);
      assert t1 == f[..|t1|] == t2;
      assert |u1| == |u2|;
      assert u1 == f[|t1| + 1..|t1| + 1 + |u1|] == u2;
    }
  }

  /** A dot in a type name lets two different keys share one file. */
  lemma DottedTypeNamesCollide()
    ensures FileName("a.b", "c") == FileName("a", "b.c")
  {
  }

  /**
   * Sharding and the save directory never merge keys: two elements with
   * separator-free keys and dot-free type names share a file only when they
   * have the same key.
   */
  lemma DistinctKeysDistinctFiles(
    t1: string, u1: string, d1: string, s1: Option<int>,
    t2: string, u2: string, d2: string, s2: Option<int>)
    requires |d1| > 0 && PlainKey(t1, u1) && '.' !in t1
    requires |d2| > 0 && PlainKey(t2, u2) && '.' !in t2
    requires FilePath(t1, u1, d1, s1).Success? && FilePath(t2, u2, d2, s2).Success?
    requires FilePath(t1, u1, d1, s1) == FilePath(t2, u2, d2, s2)
    ensures t1 == t2 && u1 == u2
  {
    FileIsNamedByKey(t1, u1, d1, s1);
    FileIsNamedByKey(t2, u2, d2, s2);
    var dir1 :| FilePath(t1, u1, d1, s1).value == dir1 + "/" + FileName(t1, u1);
    var dir2 :| FilePath(t2, u2, d2, s2).value == dir2 + "/" + FileName(t2, u2);
    PlainFileName(t1, u1);
    PlainFileName(t2, u2);
    LastComponentUnique(dir1, FileName(t1, u1), dir2, FileName(t2, u2));
    FileNameInjective(t1, u1, t2, u2);
  }

  /**
   * The configuration round trip: rebuilding from `get_config` with the same
   * key, even in another working directory, gives back the same element and so
   * the same file.
   */
  lemma ConfigRoundTrip(typeName: string, uuid: string, saveDir: string, subdirSplit: Option<int>, cwd: string, cwd': string)
    requires IsAbsolute(cwd)
    requires NewElement(typeName, uuid, saveDir, subdirSplit, cwd).Success?
    ensures var e := NewElement(typeName, uuid, saveDir, subdirSplit, cwd).value;
            var c := GetConfig(e);
            && IsAbsolute(c.saveDir)
            && c.subdirSplit == subdirSplit
            && NewElement(typeName, uuid, c.saveDir, c.subdirSplit, cwd') == Success(e)
  {
  }

  /**
   * The file system as the store sees it: the classification files that exist,
   * each with the label-to-confidence mapping it holds.
   */
  class Disk {
    var files: map<string, LabelMap>
    var dirs: set<string>

    /** Every file holds a mapping that passed validation. */
    ghost predicate Valid()
      reads this
    {
      forall p :: p in files ==> IsValid(files[p])
    }

    /** A file system with the given directories and no classification files yet. */
    constructor (dirs: set<string>)
      ensures files == map[] && this.dirs == dirs && Valid()
    {
      files := map[];
      this.dirs := dirs;
    }

    /** Whether the directory a file would be created in exists (the empty one is the working directory). */
    predicate ParentExists(path: string)
      reads this
    {
      DirName(path) == "" || DirName(path) in dirs
    }

    /** `has_classifications`: whether the element's file exists; nothing is read or changed. */
    method HasClassifications(e: Element) returns (has: bool)
      ensures has <==> e.filepath in files
    {
      has := e.filepath in files;
    }

    /**
     * `get_classification`: the mapping in the element's file, exactly as
     * stored, or `NoClassification` when there is no file.
     */
    method GetClassification(e: Element) returns (r: Result<LabelMap, ClassificationError>)
      ensures e.filepath !in files ==> r == Failure(NoClassification)
      ensures e.filepath in files ==> r == Success(files[e.filepath])
      ensures Valid() && r.Success? ==> IsValid(r.value)
    {
      var has := HasClassifications(e);
      if !has {
        return Failure(NoClassification);
      }
      return Success(files[e.filepath]);
    }

    /**
     * `set_classification`: validate the mapping, then open the element's file
     * for writing and overwrite it with the whole mapping. Opening fails when
     * the file's directory does not exist; no directory is created. A refused
     * mapping or a failed open leaves every file as it was.
     */
    method SetClassification(e: Element, m: LabelMap) returns (r: Outcome<ClassificationError>)
      modifies this
      ensures r.Pass? <==> IsValid(m) && ParentExists(e.filepath)
      ensures r.Pass? ==> files == old(files)[e.filepath := m]
      ensures r.Fail? ==> files == old(files)
      ensures !IsValid(m) ==> r.Fail? && r.error.InvalidClassification?
      ensures IsValid(m) && !ParentExists(e.filepath) ==> r == Fail(MissingDirectory(DirName(e.filepath)))
      ensures dirs == old(dirs)
      ensures old(Valid()) ==> Valid()
    {
      var checked := Validate(m);
      match checked
      case Failure(err) =>
        return Fail(err);
      case Success(valid) =>
        if !ParentExists(e.filepath) {
          return Fail(MissingDirectory(DirName(e.filepath)));
        }
        files := files[e.filepath := valid];
        return Pass;
    }
  }

  /** Before anything is stored, an element has no classification and reading it fails. */
  method FreshStoreIsEmpty(e: Element) returns (has: bool, r: Result<LabelMap, ClassificationError>)
    ensures !has && r == Failure(NoClassification)
  {
    var disk := new Disk({});
    has := disk.HasClassifications(e);
    r := disk.GetClassification(e);
  }

  /**
   * Setting then getting: a valid mapping written into an existing directory
   * comes back exactly (no merge with what was there, no re-normalisation);
   * a refused one leaves the earlier state visible.
   */
  method SetThenGet(disk: Disk, e: Element, m: LabelMap) returns (r: Result<LabelMap, ClassificationError>)
    modifies disk
    ensures IsValid(m) && disk.ParentExists(e.filepath) ==> r == Success(m)
    ensures !(IsValid(m) && old(disk.ParentExists(e.filepath))) && e.filepath in old(disk.files)
            ==> r == Success(old(disk.files)[e.filepath])
    ensures !(IsValid(m) && old(disk.ParentExists(e.filepath))) && e.filepath !in old(disk.files)
            ==> r == Failure(NoClassification)
  {
    var _ := disk.SetClassification(e, m);
    r := disk.GetClassification(e);
  }

  /**
   * An element rebuilt from another's exported configuration, in any working
   * directory, sees what the original stored.
   */
  method RebuiltElementSeesSameClassification(
    disk: Disk, typeName: string, uuid: string, saveDir: string, subdirSplit: Option<int>,
    cwd: string, cwd': string, m: LabelMap)
    returns (r: Result<LabelMap, ClassificationError>)
    requires IsAbsolute(cwd) && IsValid(m)
    requires NewElement(typeName, uuid, saveDir, subdirSplit, cwd).Success?
    requires disk.ParentExists(NewElement(typeName, uuid, saveDir, subdirSplit, cwd).value.filepath)
    modifies disk
    ensures r == Success(m)
  {
    var e := NewElement(typeName, uuid, saveDir, subdirSplit, cwd).value;
    var _ := disk.SetClassification(e, m);
    var config := GetConfig(e);
    ConfigRoundTrip(typeName, uuid, saveDir, subdirSplit, cwd, cwd');
    var rebuilt := NewElement(typeName, uuid, config.saveDir, config.subdirSplit, cwd').value;
    r := disk.GetClassification(rebuilt);
  }

  /** One shard level keeps the whole string as the single segment. */
  lemma SingleSegment(s: string)
    requires |s| > 0
    ensures Slashed(Partition(s, 1)) == "/" + s
  {
    var segs := Partition(s, 1);
    assert Concat(segs) == segs[0] + Concat(segs[1..]);
    assert segs == [s];
    assert Slashed(segs) == "/" + s + Slashed([]);
  }

  /** With one shard level the shard directory is named by the whole (hyphen-free) uuid. */
  lemma OneShardDirectory(typeName: string, uuid: string, saveDir: string)
    requires IsNormalDir(saveDir) && saveDir != "/" && PlainKey(typeName, uuid)
    requires |uuid| > 0 && '-' !in uuid
    ensures FilePath(typeName, uuid, saveDir, Some(1)).Success?
    ensures DirName(FilePath(typeName, uuid, saveDir, Some(1)).value) == saveDir + "/" + uuid
  {
    StripHyphensKeepsPlain(uuid);
    FileDirectory(typeName, uuid, saveDir, Some(1));
    SingleSegment(uuid);
    assert TrimSlash(saveDir) == saveDir;
    ConcatAssoc(saveDir, "/", uuid);
  }

  /** Where the files of an unsharded and a one-level element of the same key go. */
  lemma FreshTreeLayout(typeName: string, uuid: string, saveDir: string)
    requires IsNormalDir(saveDir) && saveDir != "/" && PlainKey(typeName, uuid)
    requires |uuid| > 0 && '-' !in uuid
    ensures NewElement(typeName, uuid, saveDir, None, "/").Success?
    ensures DirName(NewElement(typeName, uuid, saveDir, None, "/").value.filepath) == saveDir
    ensures NewElement(typeName, uuid, saveDir, Some(1), "/").Success?
    ensures DirName(NewElement(typeName, uuid, saveDir, Some(1), "/").value.filepath) == saveDir + "/" + uuid
    ensures DirName(NewElement(typeName, uuid, saveDir, Some(1), "/").value.filepath) !in {[], saveDir}
  {
    StripHyphensKeepsPlain(uuid);
    FileDirectory(typeName, uuid, saveDir, None);
    OneShardDirectory(typeName, uuid, saveDir);
    assert |saveDir + "/" + uuid| > |saveDir|;
  }

  /** In a fresh tree that holds only the save directory, the first set of an unsharded element succeeds. */
  method FirstUnshardedSet(typeName: string, uuid: string, saveDir: string, m: LabelMap)
    returns (r: Outcome<ClassificationError>)
    requires IsNormalDir(saveDir) && saveDir != "/" && PlainKey(typeName, uuid)
    requires |uuid| > 0 && '-' !in uuid && IsValid(m)
    ensures r == Pass
  {
    FreshTreeLayout(typeName, uuid, saveDir);
    var e := NewElement(typeName, uuid, saveDir, None, "/");
    var disk := new Disk({saveDir});
    assert disk.ParentExists(e.value.filepath);
    r := disk.SetClassification(e.value, m);
  }

  /**
   * In the same fresh tree the first set of an element with one shard level
   * fails: its shard directory was never created. For key ("t", "ab") under
   * "/data" that is "/data/ab".
   */
  method FirstShardedSet(typeName: string, uuid: string, saveDir: string, m: LabelMap)
    returns (r: Outcome<ClassificationError>)
    requires IsNormalDir(saveDir) && saveDir != "/" && PlainKey(typeName, uuid)
    requires |uuid| > 0 && '-' !in uuid && IsValid(m)
    ensures r == Fail(MissingDirectory(saveDir + "/" + uuid))
  {
    FreshTreeLayout(typeName, uuid, saveDir);
    var e := NewElement(typeName, uuid, saveDir, Some(1), "/");
    var dir := DirName(e.value.filepath);
    assert dir != [] && dir != saveDir;
    var disk := new Disk({saveDir});
    assert !disk.ParentExists(e.value.filepath);
    r := disk.SetClassification(e.value, m);
  }
}
