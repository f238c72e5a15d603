/** Hash partitioning of cache files, from scripts/clients/caching/hashing.py.

    A cache key is spread over `partition_count` JSON files by the value of its
    MD5 digest read as a hexadecimal integer. MD5 itself is a parameter `hash`
    here: any function from the key to a non-negative integer. */
module Hashing {
  import opened Wrappers
  import opened Text

  /** The dynamically typed arguments of `get_partition_path`, as far as its
      `isinstance` checks can tell them apart. Python's `bool` is a subclass of
      `int`, so `isinstance(True, int)` holds. */
  datatype PyValue =
    | PyStr(s: string)
    | PyPath(path: string)
    | PyInt(i: int)
    | PyBool(b: bool)
    | PyNone
    | PyOther

  /** The exception raised, with the name of the argument it complains about. */
  datatype ArgError = TypeError(arg: string) | ValueError(arg: string)

  predicate IsPyInt(v: PyValue) {
    v.PyInt? || v.PyBool?
  }

  function IntValue(v: PyValue): int
    requires IsPyInt(v)
  {
    if v.PyInt? then v.i else if v.b then 1 else 0
  }

  /** `compute_partition_index`: `hash % partition_count`, or ValueError when
      the count is not positive. */
  function ComputePartitionIndex(hash: string -> nat, cacheKey: string, partitionCount: int): (r: Result<nat, ArgError>)
    ensures partitionCount <= 0 <==> r == Err(ValueError("partition_count"))
    ensures partitionCount > 0 ==> r.Ok? && r.value < partitionCount
  {
    if partitionCount <= 0 then Err(ValueError("partition_count"))
    else Ok(hash(cacheKey) % partitionCount)
  }

  /** `f"{n:02d}"`: at least two digits, zero-padded; a negative number already
      has width two or more with its sign, so it is not padded. */
  function Format02d(n: int): (r: string)
    ensures |r| >= 2
    ensures n >= 0 ==> (forall i :: 0 <= i < |r| ==> IsDigit(r[i])) && DecimalValue(r) == n
    ensures n < 0 ==> r[0] == '-'
  {
    if n >= 0 then ZeroPad2(n) else IntToDecimal(n)
  }

  /** `build_partition_filename`: `"{base_name}.part_{index:02d}.json"`. */
  function BuildPartitionFilename(baseName: string, partitionIndex: int): (r: string)
    ensures |r| >= |baseName| + 11
    ensures StartsWith(r, baseName + ".part_") && EndsWith(r, ".json")
    ensures partitionIndex >= 0 ==>
      var d := r[|baseName| + 6..|r| - 5];
      && |d| >= 2
      && (forall i :: 0 <= i < |d| ==> IsDigit(d[i]))
      && DecimalValue(d) == partitionIndex
  {
    var p := baseName + ".part_";
    var d := Format02d(partitionIndex);
    var r := p + d + ".json";
    assert r[|baseName| + 6..|r| - 5] == d;
    r
  }

  /** Different partitions of the same base name never share a file name. */
  lemma PartitionFilenameInjective(baseName: string, i: nat, j: nat)
    requires BuildPartitionFilename(baseName, i) == BuildPartitionFilename(baseName, j)
    ensures i == j
  {
  }

  /** `_validate_get_partition_path_args`: the checks in their source order, the
      first failing one deciding the exception. A failure names one of the four
      parameters, and a failure about a later parameter means the earlier ones
      passed. */
  function ValidateArgs(cacheKey: PyValue, baseDir: PyValue, baseName: PyValue, partitionCount: PyValue): (r: Outcome<ArgError>)
    ensures r.Fail? ==> r.error.arg in {"cache_key", "base_dir", "base_name", "partition_count"}
    ensures r.Fail? && r.error.arg != "cache_key" ==> cacheKey.PyStr? && !AllSpace(cacheKey.s)
    ensures r.Fail? && (r.error.arg == "base_name" || r.error.arg == "partition_count") ==>
      baseDir.PyPath? || (baseDir.PyStr? && !AllSpace(baseDir.s))
    ensures r.Fail? && r.error.arg == "partition_count" ==> baseName.PyStr? && !AllSpace(baseName.s)
  {
    if !cacheKey.PyStr? then Fail(TypeError("cache_key"))
    else if Strip(cacheKey.s) == "" then Fail(ValueError("cache_key"))
    else if baseDir.PyNone? || (baseDir.PyStr? && Strip(baseDir.s) == "") then Fail(ValueError("base_dir"))
    else if !(baseDir.PyStr? || baseDir.PyPath?) then Fail(TypeError("base_dir"))
    else if !baseName.PyStr? then Fail(TypeError("base_name"))
    else if Strip(baseName.s) == "" then Fail(ValueError("base_name"))
    else if !IsPyInt(partitionCount) then Fail(TypeError("partition_count"))
    else if IntValue(partitionCount) <= 0 then Fail(ValueError("partition_count"))
    else Pass
  }

  /** The arguments `get_partition_path` accepts. */
  predicate ValidArgs(cacheKey: PyValue, baseDir: PyValue, baseName: PyValue, partitionCount: PyValue) {
    && cacheKey.PyStr? && !AllSpace(cacheKey.s)
    && (baseDir.PyPath? || (baseDir.PyStr? && !AllSpace(baseDir.s)))
    && baseName.PyStr? && !AllSpace(baseName.s)
    && IsPyInt(partitionCount) && IntValue(partitionCount) > 0
  }

  /** The key passes its checks: a string that is not blank. */
  predicate KeyOk(cacheKey: PyValue) {
    cacheKey.PyStr? && !AllSpace(cacheKey.s)
  }

  /** The directory passes its checks: a Path, or a string that is not blank. */
  predicate DirOk(baseDir: PyValue) {
    baseDir.PyPath? || (baseDir.PyStr? && !AllSpace(baseDir.s))
  }

  /** The base name passes its checks: a string that is not blank. */
  predicate NameOk(baseName: PyValue) {
    baseName.PyStr? && !AllSpace(baseName.s)
  }

  /** Validation passes exactly on valid arguments, and each check, once the
      checks before it pass, raises its own exception: TypeError for a wrong
      type, ValueError for a missing or blank value. A missing directory is
      reported before a wrongly typed one. */
  lemma ValidateArgsSpec(cacheKey: PyValue, baseDir: PyValue, baseName: PyValue, partitionCount: PyValue)
    ensures ValidateArgs(cacheKey, baseDir, baseName, partitionCount).Pass?
        <==> ValidArgs(cacheKey, baseDir, baseName, partitionCount)
    ensures !cacheKey.PyStr? ==> ValidateArgs(cacheKey, baseDir, baseName, partitionCount) == Fail(TypeError("cache_key"))
    ensures cacheKey.PyStr? && AllSpace(cacheKey.s) ==>
      ValidateArgs(cacheKey, baseDir, baseName, partitionCount) == Fail(ValueError("cache_key"))
    ensures cacheKey.PyStr? && !AllSpace(cacheKey.s) && baseDir.PyNone? ==>
      ValidateArgs(cacheKey, baseDir, baseName, partitionCount) == Fail(ValueError("base_dir"))
    ensures KeyOk(cacheKey) && baseDir.PyStr? && AllSpace(baseDir.s) ==>
      ValidateArgs(cacheKey, baseDir, baseName, partitionCount) == Fail(ValueError("base_dir"))
    ensures KeyOk(cacheKey) && !baseDir.PyNone? && !baseDir.PyStr? && !baseDir.PyPath? ==>
      ValidateArgs(cacheKey, baseDir, baseName, partitionCount) == Fail(TypeError("base_dir"))
    ensures KeyOk(cacheKey) && DirOk(baseDir) && !baseName.PyStr? ==>
      ValidateArgs(cacheKey, baseDir, baseName, partitionCount) == Fail(TypeError("base_name"))
    ensures KeyOk(cacheKey) && DirOk(baseDir) && baseName.PyStr? && AllSpace(baseName.s) ==>
      ValidateArgs(cacheKey, baseDir, baseName, partitionCount) == Fail(ValueError("base_name"))
    ensures KeyOk(cacheKey) && DirOk(baseDir) && NameOk(baseName) && !IsPyInt(partitionCount) ==>
      ValidateArgs(cacheKey, baseDir, baseName, partitionCount) == Fail(TypeError("partition_count"))
    ensures KeyOk(cacheKey) && DirOk(baseDir) && NameOk(baseName) && IsPyInt(partitionCount) && IntValue(partitionCount) <= 0 ==>
      ValidateArgs(cacheKey, baseDir, baseName, partitionCount) == Fail(ValueError("partition_count"))
  {
  }

  /** The directory as a string: `str(Path(base_dir))` for a Path, itself for a str. */
  function DirString(baseDir: PyValue): string
    requires baseDir.PyStr? || baseDir.PyPath?
  {
    if baseDir.PyStr? then baseDir.s else baseDir.path
  }

  /** `str(Path(dir) / name)`, taken as plain POSIX concatenation: a `/` is put
      between the two unless the directory already ends with one. */
  function JoinPath(dir: string, name: string): (r: string)
    ensures EndsWith(r, name) && StartsWith(r, dir)
    ensures |r| == |dir| + |name| || |r| == |dir| + 1 + |name|
  {
    if EndsWith(dir, "/") then dir + name else dir + "/" + name
  }

  /** Within one directory, different file names give different paths. */
  lemma JoinPathInjective(dir: string, a: string, b: string)
    requires JoinPath(dir, a) == JoinPath(dir, b)
    ensures a == b
  {
    var p := if EndsWith(dir, "/") then dir else dir + "/";
    assert JoinPath(dir, a) == p + a && JoinPath(dir, b) == p + b;
    assert a == (p + a)[|p|..] && b == (p + b)[|p|..];
  }

  /** `get_partition_path`: validate, pick the partition, build the file name and
      join it to the directory. */
  function GetPartitionPath(hash: string -> nat, cacheKey: PyValue, baseDir: PyValue, baseName: PyValue,
                            partitionCount: PyValue): (r: Result<string, ArgError>)
    ensures r.Ok? <==> ValidArgs(cacheKey, baseDir, baseName, partitionCount)
    ensures r.Err? ==> Fail(r.error) == ValidateArgs(cacheKey, baseDir, baseName, partitionCount)
    ensures r.Ok? ==>
      var n := IntValue(partitionCount);
      r.value == JoinPath(DirString(baseDir), BuildPartitionFilename(baseName.s, hash(cacheKey.s) % n))
  {
    ValidateArgsSpec(cacheKey, baseDir, baseName, partitionCount);
    match ValidateArgs(cacheKey, baseDir, baseName, partitionCount)
    case Fail(e) => Err(e)
    case Pass =>
      var idx := ComputePartitionIndex(hash, cacheKey.s, IntValue(partitionCount)).value;
      Ok(JoinPath(DirString(baseDir), BuildPartitionFilename(baseName.s, idx)))
  }

  /** Two keys whose digests agree modulo the count share a partition file, and
      two keys in different partitions never do. */
  lemma SamePathIffSamePartition(hash: string -> nat, k1: string, k2: string, dir: string, name: string, n: int)
    requires !AllSpace(k1) && !AllSpace(k2) && !AllSpace(dir) && !AllSpace(name) && n > 0
    ensures var p1 := GetPartitionPath(hash, PyStr(k1), PyStr(dir), PyStr(name), PyInt(n));
      var p2 := GetPartitionPath(hash, PyStr(k2), PyStr(dir), PyStr(name), PyInt(n));
      p1.Ok? && p2.Ok? && (p1.value == p2.value <==> hash(k1) % n == hash(k2) % n)
  {
    assert ValidArgs(PyStr(k1), PyStr(dir), PyStr(name), PyInt(n)) && ValidArgs(PyStr(k2), PyStr(dir), PyStr(name), PyInt(n));
    var i1 := hash(k1) % n;
    var i2 := hash(k2) % n;
    var f1 := BuildPartitionFilename(name, i1);
    var f2 := BuildPartitionFilename(name, i2);
    if JoinPath(dir, f1) == JoinPath(dir, f2) {
      JoinPathInjective(dir, f1, f2);
      PartitionFilenameInjective(name, i1, i2);
    }
  }
}
