# SMQTK file-backed classification store and DataSet contract, in Dafny

This project models two pieces of SMQTK's representation layer:

- `FileClassificationElement` (`python/smqtk/representation/classification_element/file.py`):
  a classification result (a label-to-confidence mapping) for the key
  (type name, uuid), stored in one file. The file path is derived from a save
  directory, optionally sharded into nested directories cut from the uuid with
  its hyphens removed. The element can report whether its file exists, read
  the mapping back, and overwrite it with a new mapping that has passed
  validation. It exports its configuration (`save_dir`, `subdir_split`), and
  rebuilding from that configuration gives the same file.
- The abstract `DataSet` (`python/smqtk/data_rep/data_set_abstract.py`): a
  collection of data elements keyed by uuid, with `count`, `uuids`,
  `has_uuid`, `add_data` and `get_data`.

Layout:

| file | module | contents |
|---|---|---|
| `wrappers.dfy` | `Wrappers` | `Option`, `Result`, `Outcome` in place of `None` and raised exceptions |
| `posix_path.dfy` | `PosixPath` | `os.path.join` and the absolutising step of `os.path.abspath`, on strings |
| `string_utils.dfy` | `StringUtils` | `str.replace('-', '')` and `partition_string` |
| `classification.dfy` | `Classification` | labels, confidence mappings and the validation a mapping must pass before it is stored |
| `file_classification.dfy` | `FileClassification` | the element (path derivation, `get_config`, `is_usable`), the file system as a `Disk` object with `has`/`get`/`set_classification`, and client scenarios |
| `data_set.dfy` | `DataSets` | the `DataSet` contract over a uuid-to-element map |

Design of the model:

- The element is an immutable value (`Element`), because `__init__` sets its
  fields and nothing changes them afterwards. `NewElement` is `__init__`. The
  model assumes that `partition_string`, which is not part of this model,
  refuses more segments than the hyphen-free uuid has characters. So
  `NewElement` can fail.
- The file system is the class `Disk`. Its field `files` maps each existing
  classification file path to the mapping pickled in it. `HasClassifications`,
  `GetClassification` and `SetClassification` are its methods and take the
  element whose file they touch. Two elements with the same path therefore see
  the same file, as on a real disk. The field `dirs` holds the directories that
  exist. `file.py` imports `file_utils` but never calls it, so it creates
  neither `save_dir` nor any shard directory. `open(filepath, 'w')` at
  `file.py:121` then raises `IOError` when the file's directory is missing.
  `SetClassification` models this as `MissingDirectory`. In a tree that holds
  only the save directory, the first set of a sharded element fails
  (`FirstShardedSet`), while that of an unsharded one succeeds
  (`FirstUnshardedSet`).
- Paths are strings. `Join` is POSIX `os.path.join`: an absolute component
  discards what came before. A separator is added unless the left side is
  empty or already ends in one. The layout lemmas hold for keys without `/`.
  For other keys `FilePath` still computes what the code computes. A `/`
  inside the type name or uuid adds directory levels. A type name that starts
  with `/` is an absolute component, so the save directory and the shard
  directories are discarded and the file lands outside `save_dir`
  (`AbsoluteTypeNameEscapesSaveDir`). For example, type name `/etc/x`, uuid
  `u` and save directory `/data` give the file `/etc/x.u.classification.pickle`.
- `abspath(expanduser(save_dir))` becomes `AbsPath(cwd, save_dir)`. The
  working directory is a parameter, and an absolute path is kept as it is.
  This is the property the configuration round trip needs.
- Confidences are exact reals. `Round9` is Python 2's `round(x, 9)`, which
  rounds halves away from zero. The check "the sum rounded to 9 decimals
  equals 1.0" becomes `0.9999999995 <= sum < 1.0000000005`, and
  `RoundsToOne` is proved equal to `Round9(sum) == 1.0`. The lower halfway
  point rounds up to 1.0 and is accepted. The upper one rounds up to
  1.000000001 and is refused. The sum is `Sum`, a ghost function over the map.
  `SumConfidences` computes it one entry at a time.
- `DataSet` is abstract in the source, with no method bodies. Here it is one
  class whose state is the uuid-to-element map, and each operation is
  specified against that map. `add_data` inserts the element, or replaces the
  one already stored under the same uuid. `get_data` fails with `KeyError`.

Where the description of the system and the code differ, the model follows the
code. `FileClassificationElement.set_classification` returns nothing
(`file.py:119-122`), so `SetClassification` returns only success, the
validation error, or the missing-directory error. It does not return a
canonical mapping.

## Model

| member | source | states |
|---|---|---|
| `FileClassification.IsUsable` | python/smqtk/representation/classification_element/file.py:18-20 | the backend is always usable |
| `StringUtils.StripHyphens` | python/smqtk/representation/classification_element/file.py:56 | the result has no hyphen and is no longer than the uuid string |
| `StringUtils.StripHyphensCounts` | python/smqtk/representation/classification_element/file.py:56 | the result holds every character other than the hyphen exactly as often as the uuid string does |
| `StringUtils.StripHyphensKeepsPlain` | python/smqtk/representation/classification_element/file.py:38-44 | a uuid string without hyphens is used as it is |
| `StringUtils.StripHyphensAppend` | python/smqtk/representation/classification_element/file.py:56 | stripping works piecewise over concatenation, so the surviving characters keep their order |
| `StringUtils.StripHyphensIdempotent` | python/smqtk/representation/classification_element/file.py:56 | stripping an already stripped string changes nothing |
| `StringUtils.Partition` | python/smqtk/representation/classification_element/file.py:54-58 | exactly `subdir_split` non-empty contiguous segments that spell the stripped uuid, each of length floor or ceiling of length/segments |
| `PosixPath.Join` | python/smqtk/representation/classification_element/file.py:62-64 | joining keeps the directory as a prefix and the component as a suffix; an absolute component replaces the directory |
| `PosixPath.JoinAllPlain` | python/smqtk/representation/classification_element/file.py:55-58 | joining plain segments onto a directory appends "/segment" for each one, in order |
| `PosixPath.AbsPath` | python/smqtk/representation/classification_element/file.py:50 | an absolute save directory is kept; a relative one becomes absolute under the working directory |
| `PosixPath.AbsPathIdempotent` | python/smqtk/representation/classification_element/file.py:50 | absolutising an absolutised directory again, from any working directory, changes nothing |
| `FileClassification.FilePath` | python/smqtk/representation/classification_element/file.py:54-64 | path derivation fails exactly when sharding asks for more levels than the stripped uuid has characters |
| `FileClassification.Sharded` | python/smqtk/representation/classification_element/file.py:54 | sharding happens exactly when `subdir_split` is at least 1; `None`, 0 and negative values mean no sharding |
| `FileClassification.FileName` | python/smqtk/representation/classification_element/file.py:62-64 | the file name is the type name, a dot, the uuid with its hyphens kept, and `.classification.pickle` |
| `PosixPath.JoinAll` | python/smqtk/representation/classification_element/file.py:55-58 | joining no parts gives the directory itself; otherwise the result ends with the last part |
| `FileClassification.NewElement` | python/smqtk/representation/classification_element/file.py:48-64 | construction keeps the key and split, stores an absolute save directory, fails exactly as path derivation does, and its file path is the one derived from that absolute save directory |
| `FileClassification.GetConfig` | python/smqtk/representation/classification_element/file.py:66-70 | the exported `save_dir` is the element's absolute save directory and `subdir_split` is the split as given |
| `FileClassification.UnshardedLayout` | python/smqtk/representation/classification_element/file.py:59-64 | with `subdir_split` unset, zero or negative, the file is `save_dir/<type>.<uuid>.classification.pickle` |
| `FileClassification.ShardedLayout` | python/smqtk/representation/classification_element/file.py:54-58 | with `subdir_split` = n > 0 the file lies n directory levels below `save_dir`, one per partition segment, and the segments spell the hyphen-free uuid |
| `FileClassification.FileIsNamedByKey` | python/smqtk/representation/classification_element/file.py:62-64 | whatever the sharding, the last path component is `<type>.<uuid>.classification.pickle`, with the uuid's hyphens kept |
| `FileClassification.FileNameInjective` | python/smqtk/representation/classification_element/file.py:62-64 | with dot-free type names the file name determines the type name and the uuid |
| `FileClassification.DottedTypeNamesCollide` | python/smqtk/representation/classification_element/file.py:62-64 | a dotted type name lets two keys share one file name |
| `FileClassification.DistinctKeysDistinctFiles` | python/smqtk/representation/classification_element/file.py:54-64 | for keys without `/` in the type name or uuid and type names without `.`, under any non-empty save directories and any splits, different keys never share a file |
| `FileClassification.AbsoluteTypeNameEscapesSaveDir` | python/smqtk/representation/classification_element/file.py:54-64 | a type name starting with `/` makes the file path the bare file name, outside the save directory and any shard directory |
| `PosixPath.DirNameOfChild` | python/smqtk/representation/classification_element/file.py:121 | the directory that must exist for `d/name` to be opened is `d` (the root when `d` is empty) |
| `FileClassification.FileDirectory` | python/smqtk/representation/classification_element/file.py:52-64 | the file's directory is `save_dir` without sharding and the innermost shard directory with it |
| `FileClassification.OneShardDirectory` | python/smqtk/representation/classification_element/file.py:54-58 | with one shard level the file's directory is `save_dir/<uuid>` |
| `FileClassification.FreshTreeLayout` | python/smqtk/representation/classification_element/file.py:52-64 | for one key, the unsharded file lies in `save_dir` and the one-level file in `save_dir/<uuid>` |
| `FileClassification.ConfigRoundTrip` | python/smqtk/representation/classification_element/file.py:66-70 | `get_config` gives an absolute `save_dir` and the original `subdir_split`; rebuilding from it, in any working directory, gives the same element and file path |
| `FileClassification.Disk.HasClassifications` | python/smqtk/representation/classification_element/file.py:72-77 | true exactly when the element's file exists; no state changes |
| `FileClassification.Disk.GetClassification` | python/smqtk/representation/classification_element/file.py:79-98 | `NoClassification` when the file is absent, otherwise the stored mapping unchanged (valid when the disk is) |
| `FileClassification.Disk.SetClassification` | python/smqtk/representation/classification_element/file.py:100-122 | succeeds exactly for a valid mapping whose file's directory exists, and then replaces the whole file content with it; an invalid mapping fails with the validation error, a missing directory with `MissingDirectory`; on failure every file is unchanged; no directory is created |
| `FileClassification.FreshStoreIsEmpty` | python/smqtk/representation/classification_element/file.py:88-96 | before any set, `has_classifications` is false and `get_classification` fails with `NoClassification` |
| `FileClassification.SetThenGet` | python/smqtk/representation/classification_element/file.py:100-104 | a get after a set of a valid mapping into an existing directory returns exactly the mapping set; after a refused set it returns what was there before |
| `FileClassification.RebuiltElementSeesSameClassification` | python/smqtk/representation/classification_element/file.py:66-70 | an element rebuilt from another's configuration reads what the original stored |
| `FileClassification.FirstUnshardedSet` | python/smqtk/representation/classification_element/file.py:119-122 | in a tree holding only the save directory, the first set of a valid mapping for an unsharded element succeeds |
| `FileClassification.FirstShardedSet` | python/smqtk/representation/classification_element/file.py:119-122 | in the same tree, the first set for an element with one shard level fails with `MissingDirectory(save_dir/<uuid>)`, because no code creates that directory |
| `Classification.Sum` | python/smqtk/representation/classification_element/file.py:108 | the sum of all confidences, non-negative when every confidence is |
| `Classification.Round9` | python/smqtk/representation/classification_element/file.py:109-110 | `round(x, 9)` lies within half of 10^-9 of `x`, and is non-negative for non-negative `x` |
| `Classification.RoundsToOne` | python/smqtk/representation/classification_element/file.py:108-110 | the interval `[0.9999999995, 1.0000000005)` holds exactly the values that `round(x, 9)` takes to 1.0 |
| `Classification.IsValid` | python/smqtk/representation/classification_element/file.py:108-109 | a valid mapping is never empty |
| `Classification.ValidIffRoundedSumIsOne` | python/smqtk/representation/classification_element/file.py:108-116 | a mapping is valid exactly when it is non-empty and `round(sum, 9) == 1.0` |
| `Classification.SumRemove` | python/smqtk/representation/classification_element/file.py:108-110 | the confidence sum does not depend on the order of the entries |
| `Classification.SumConfidences` | python/smqtk/representation/classification_element/file.py:108-110 | computes the sum of all confidences |
| `Classification.Validate` | python/smqtk/representation/classification_element/file.py:108-120 | accepts exactly the non-empty mappings whose rounded sum is 1.0 and returns them unchanged; empty or badly summing mappings fail with the reason |
| `Classification.EmptyIsInvalid` | python/smqtk/representation/classification_element/file.py:108-109 | the empty mapping is refused |
| `Classification.SingleLabelIsValid` | python/smqtk/representation/classification_element/file.py:108-110 | one label with confidence 1.0 is accepted |
| `Classification.NearMissIsInvalid` | python/smqtk/representation/classification_element/file.py:108-110 | `{a: 0.5, b: 0.49999999}` is refused, since its sum rounds to 0.99999999 |
| `Classification.RoundingToleranceAccepted` | python/smqtk/representation/classification_element/file.py:108-110 | `{a: 0.5, b: 0.4999999996}` is accepted, since its sum rounds to 1.0 |
| `Classification.LowerHalfwayIsValid` | python/smqtk/representation/classification_element/file.py:108-110 | a sum of exactly 0.9999999995 rounds up to 1.0 and is accepted |
| `Classification.UpperHalfwayIsInvalid` | python/smqtk/representation/classification_element/file.py:108-110 | a sum of exactly 1.0000000005 rounds up to 1.000000001 and is refused |
| `Classification.OutOfRangeConfidencesAccepted` | python/smqtk/representation/classification_element/file.py:86-116 | `{a: 2.0, b: -1.0}` is accepted although its confidences lie outside the documented [0,1] range |
| `DataSets.DataSet.Count` | python/smqtk/data_rep/data_set_abstract.py:18-24 | the number of elements, a natural number equal to the number of uuids |
| `DataSets.DataSet.Uuids` | python/smqtk/data_rep/data_set_abstract.py:26-32 | exactly the set of uuids in the data set |
| `DataSets.DataSet.HasUuid` | python/smqtk/data_rep/data_set_abstract.py:34-47 | true exactly when the uuid is among `uuids()` |
| `DataSets.DataSet.AddData` | python/smqtk/data_rep/data_set_abstract.py:49-58 | the element is stored under its uuid, replacing any element with that uuid; nothing else changes; every element stays under its own uuid |
| `DataSets.DataSet.GetData` | python/smqtk/data_rep/data_set_abstract.py:60-75 | the element stored for the uuid, which carries that uuid, or `KeyError` when there is none |
| `DataSets.AddThenFind` | python/smqtk/data_rep/data_set_abstract.py:49-58 | after `add_data(e)`, `has_uuid(e.uuid)` holds and `get_data` returns `e` |
| `DataSets.AddSameUuidTwice` | python/smqtk/data_rep/data_set_abstract.py:49-58 | a second add under the same uuid keeps `count()` and makes `get_data` return the newer element |
| `DataSets.MissingUuidIsKeyError` | python/smqtk/data_rep/data_set_abstract.py:60-75 | a uuid never added is not found and `get_data` fails with `KeyError` |

## Left out

- Pickling and real file I/O (`open`, `osp.isfile`, `cPickle`): the disk is a map from path to mapping. Apart from a missing directory when a file is created, I/O errors on read or write (permissions, a full disk, a corrupt pickle), which propagate unwrapped in the code, cannot occur in the model.
- `osp.expanduser` and the normalising part of `osp.abspath` (collapsing `.`, `..`, repeated and trailing separators): both depend on the user's home directory and the OS. Only the absolutising step against a working-directory parameter is modelled. Normalisation is idempotent as well, so the round trip is unaffected.
- `partition_string` lives in `smqtk.utils.string_utils`, which is not part of this model. `Partition` gives it a body that puts the remainder in the leading segments. No lemma about the store depends on that choice; they use only the contract (segment count, concatenation, balanced lengths, refusal of more segments than characters).
- Floating point: confidences are exact reals, and `round(x, 9)` is read on exact decimals. Float representation error in the summation is not modelled.
- The superclass `ClassificationElement` is not part of this model. It stores `type_name` and `uuid` and holds the validation that `set_classification` calls. The validation is modelled from the documented rule at `file.py:108-116`. The keyword-argument form of `set_classification` (`**kwds` merged into `m`) is left out, and the model takes a single mapping.
- Classification.IsValid: confidences are not required to lie in [0,1]. The docstring at `file.py:86` documents that range, but the validation documented at `file.py:108-116` checks only non-emptiness and the rounded sum, so `{a: 2.0, b: -1.0}` is stored (`OutOfRangeConfidencesAccepted`).
- `Disk.GetClassification`: a file written by other means may hold any mapping. Its result is valid only while every write goes through `SetClassification` (`Disk.Valid`).
- `NewElement`: `subdir_split` is modelled as an optional integer. Other values that `int()` accepts, such as the string "3", are not.
- The uuid is modelled by its `str()` form, and labels by strings or integers.
- The `_log` property of `DataSet` (logging only).
- `DataSet` has no implementation in the source. The model states its contract over the uuid-to-element map, and concrete backends are not part of this model.
- Plugin discovery, the usability registry, the configuration factory, and the test plugin module `python/smqtk/tests/utils/test_plugin_dir/internal_plugins/implPartial.py` are not part of this model. The code that honours its export marker is not among the files modelled.
- Concurrent writers to one file (last writer wins at the OS level) are not modelled. The model is sequential.
