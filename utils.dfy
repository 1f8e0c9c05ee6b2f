/**
 * The plugin's helpers: the deterministic image file name, the removal of a
 * temporary file and of the generated images, and the guard of the relative
 * path computation. The file system is a `FileSystem` object holding the set
 * of existing paths; MD5 is a parameter.
 */
module Utils {
  import opened Wrappers
  import opened Text
  import opened Paths

  predicate IsHexDigit(c: char) {
    '0' <= c <= '9' || 'a' <= c <= 'f'
  }

  /** What `hashlib.md5(...).hexdigest()` returns: 32 lower-case hexadecimal digits. */
  type Digest = s: string | |s| == 32 && forall i :: 0 <= i < |s| ==> IsHexDigit(s[i])
    witness "00000000000000000000000000000000"

  // ----- generate_image_filename -----

  /** The first eight hexadecimal digits of the MD5 of the Mermaid source (of its UTF-8 bytes, which `md5` stands for). */
  function CodeHash(code: string, md5: string -> Digest): (h: string)
    ensures |h| == 8
    ensures forall i :: 0 <= i < |h| ==> IsHexDigit(h[i])
  {
    md5(code)[..8]
  }

  /** `generate_image_filename(page_file, block_index, mermaid_code, image_format)`. */
  function GenerateImageFilename(pageFile: string, blockIndex: int, code: string, imageFormat: string, md5: string -> Digest): string {
    Stem(pageFile) + "_mermaid_" + IntToString(blockIndex) + "_" + CodeHash(code, md5) + "." + imageFormat
  }

  /** The four pieces a generated image name is made of. */
  datatype ImageName = ImageName(pageStem: string, blockIndex: int, hash: string, imageFormat: string)

  const MermaidInfix := "_mermaid_"

  /**
   * Reads a generated image name back, from the right: the format after the last dot, the hash after
   * the last underscore before it, the index after the underscore before that, and the page stem
   * before `_mermaid_`.
   */
  function DecodeImageFilename(name: string): (r: Option<ImageName>)
    ensures r.Some? ==> '.' !in r.value.imageFormat && '_' !in r.value.hash
  {
    var dot := RFind(name, '.');
    if dot < 0 then None
    else
      var base, format := name[..dot], name[dot + 1..];
      var u := RFind(base, '_');
      if u < 0 then None
      else
        var rest, hash := base[..u], base[u + 1..];
        var v := RFind(rest, '_');
        if v < 0 then None
        else
          var head, digits := rest[..v + 1], rest[v + 1..];
          if |head| < |MermaidInfix| || head[|head| - |MermaidInfix|..] != MermaidInfix then None
          else match ParseInt(digits)
            case None => None
            case Some(index) => Some(ImageName(head[..|head| - |MermaidInfix|], index, hash, format))
  }

  lemma UnderscoreFreeHash(code: string, md5: string -> Digest)
    ensures '_' !in CodeHash(code, md5) && '.' !in CodeHash(code, md5)
  {
    var h := CodeHash(code, md5);
    forall i | 0 <= i < |h| ensures h[i] != '_' && h[i] != '.' { assert IsHexDigit(h[i]); }
  }

  lemma UnderscoreFreeIndex(i: int)
    ensures '_' !in IntToString(i) && '.' !in IntToString(i)
  {
    var s := IntToString(i);
    forall k | 0 <= k < |s| ensures s[k] != '_' && s[k] != '.' { }
  }

  /**
   * The file name is determined by its inputs and keeps them apart: reading it back gives the page's
   * stem, the block index, the eight-digit hash and the format, whenever the format has no dot and the index
   * is short enough for `int()` to read back.
   */
  lemma DecodeGenerated(pageFile: string, blockIndex: int, code: string, imageFormat: string, md5: string -> Digest)
    requires '.' !in imageFormat
    ensures DecodeImageFilename(GenerateImageFilename(pageFile, blockIndex, code, imageFormat, md5))
         == if WithinDigitLimit(IntToString(blockIndex))
            then Some(ImageName(Stem(pageFile), blockIndex, CodeHash(code, md5), imageFormat))
            else None
  {
    UnderscoreFreeHash(code, md5);
    UnderscoreFreeIndex(blockIndex);
    DecodeParts(Stem(pageFile), IntToString(blockIndex), CodeHash(code, md5), imageFormat);
    ParseIntToString(blockIndex);
  }

  /** The pieces of `<stem>_mermaid_<digits>_<hash>.<format>` come back apart, the digits still to be parsed. */
  lemma DecodeParts(stem: string, digits: string, hash: string, format: string)
    requires '_' !in digits && '.' !in digits && '_' !in hash && '.' !in hash && '.' !in format
    ensures DecodeImageFilename(stem + "_mermaid_" + digits + "_" + hash + "." + format)
         == match ParseInt(digits)
              case None => None
              case Some(index) => Some(ImageName(stem, index, hash, format))
  {
    var head := stem + MermaidInfix;
    var rest := head + digits;
    var base := rest + "_" + hash;
    var name := base + "." + format;
    RFindSeparator(base, '.', format);
    RFindSeparator(rest, '_', hash);
    assert rest == (stem + "_mermaid") + "_" + digits;
    RFindSeparator(stem + "_mermaid", '_', digits);
    assert head[|head| - |MermaidInfix|..] == MermaidInfix && head[..|head| - |MermaidInfix|] == stem;
  }

  /** Two names generated from the same Mermaid source carry the same eight-digit hash, whatever the page, index and format. */
  lemma HashDependsOnCodeOnly(page1: string, page2: string, i1: int, i2: int, code: string, f1: string, f2: string, md5: string -> Digest)
    requires '.' !in f1 && '.' !in f2
    requires WithinDigitLimit(IntToString(i1)) && WithinDigitLimit(IntToString(i2))
    ensures (var d1, d2 := DecodeImageFilename(GenerateImageFilename(page1, i1, code, f1, md5)),
                          DecodeImageFilename(GenerateImageFilename(page2, i2, code, f2, md5));
             d1.Some? && d2.Some? && d1.value.hash == d2.value.hash && |d1.value.hash| == 8)
  {
    DecodeGenerated(page1, i1, code, f1, md5);
    DecodeGenerated(page2, i2, code, f2, md5);
  }

  /** The page of the plugin's own file-name tests. */
  const TestPage := "test.md"

  /** The first block of `test.md` as a PNG is named `test_mermaid_0_<hash>.png`. */
  lemma TestPageFilename(code: string, md5: string -> Digest)
    ensures GenerateImageFilename(TestPage, 0, code, "png", md5) == "test" + "_mermaid_0_" + CodeHash(code, md5) + "." + "png"
  {
    TestPageStem();
    FirstBlockName(TestPage, code, "png", md5);
  }

  /** The first block of a page is named after the page's stem, index `0`, the hash and the format. */
  lemma FirstBlockName(pageFile: string, code: string, imageFormat: string, md5: string -> Digest)
    ensures GenerateImageFilename(pageFile, 0, code, imageFormat, md5)
         == Stem(pageFile) + "_mermaid_0_" + CodeHash(code, md5) + "." + imageFormat
  {
    assert IntToString(0) == [DigitChar(0)] == "0";
    var stem := Stem(pageFile);
    assert stem + "_mermaid_" + "0" + "_" == stem + "_mermaid_0_";
  }

  lemma TestPageStem()
    ensures Stem(TestPage) == "test"
  {
    StemOfFileName("test", "md");
    assert "test" + "." + "md" == TestPage;
  }

  // ----- the file system -----

  /** What `unlink` raises for a path it cannot remove. */
  datatype RemoveFailure = PermissionFailure | OtherOSFailure

  /** The files that exist, and those among them whose removal raises. */
  class FileSystem {
    var paths: set<string>
    var failing: map<string, RemoveFailure>

    constructor (paths: set<string>, failing: map<string, RemoveFailure>)
      ensures this.paths == paths && this.failing == failing
    {
      this.paths := paths;
      this.failing := failing;
    }

    /** `Path(p).exists()`. */
    predicate Exists(p: string)
      reads this
    {
      p in paths
    }

    /** `Path(p).unlink()` on an existing file: removes it, or raises the failure recorded for it. */
    method Unlink(p: string) returns (failure: Option<RemoveFailure>)
      requires p in paths
      modifies this
      ensures failing == old(failing)
      ensures p in failing ==> failure == Some(failing[p]) && paths == old(paths)
      ensures p !in failing ==> failure == None && paths == old(paths) - {p}
    {
      if p in failing {
        failure := Some(failing[p]);
      } else {
        paths := paths - {p};
        failure := None;
      }
    }

    /** `shutil.rmtree(d)`: the directory and everything under it are gone. */
    method RemoveTree(d: string)
      modifies this
      ensures failing == old(failing)
      ensures paths == set p | p in old(paths) && p != d && !IsBelow(p, d)
    {
      paths := set p | p in paths && p != d && !IsBelow(p, d);
    }
  }

  /** `p` lies inside directory `d`. */
  predicate IsBelow(p: string, d: string) {
    |d| + 1 <= |p| && p[..|d| + 1] == d + "/"
  }

  // ----- clean_temp_file -----

  /** What is left after `clean_temp_file(p)`: the file is gone unless the path is empty, absent or cannot be removed. */
  function AfterTempClean(paths: set<string>, failing: map<string, RemoveFailure>, p: string): (r: set<string>)
    ensures r <= paths && paths - r <= {p}
    ensures p != "" && p !in failing ==> p !in r
    ensures p == "" || p in failing ==> r == paths
  {
    if p != "" && p in paths && p !in failing then paths - {p} else paths
  }

  /** The warning logged when removal raises. */
  function TempCleanWarning(failure: RemoveFailure, p: string): (w: string)
    ensures |w| > |p| && w[|w| - |p|..] == p
  {
    match failure
    case PermissionFailure => "Permission denied when cleaning temporary file: " + p
    case OtherOSFailure => "OS error when cleaning temporary file: " + p
  }

  /** `clean_temp_file(file_path)`: removal errors become a logged warning and are not propagated. */
  method CleanTempFile(fs: FileSystem, filePath: string) returns (warning: Option<string>)
    modifies fs
    ensures fs.failing == old(fs.failing)
    ensures fs.paths == AfterTempClean(old(fs.paths), old(fs.failing), filePath)
    ensures warning.Some? <==> filePath != "" && filePath in old(fs.paths) && filePath in old(fs.failing)
    ensures warning.Some? ==> warning.value == TempCleanWarning(old(fs.failing)[filePath], filePath)
  {
    if filePath == "" {
      return None;
    }
    warning := None;
    if fs.Exists(filePath) {
      var failure := fs.Unlink(filePath);
      if failure.Some? {
        warning := Some(TempCleanWarning(failure.value, filePath));
      }
    }
  }

  // ----- clean_generated_images -----

  /** The listed paths the cleanup removes: non-empty, existing, and removable. */
  function Deletable(paths: set<string>, failing: map<string, RemoveFailure>, listed: seq<string>): (d: set<string>)
    ensures d <= paths
  {
    set p | p in listed && p != "" && p in paths && p !in failing
  }

  /** The number of entries whose removal raises: every occurrence of an existing path that cannot be removed. */
  function FailedRemovals(paths: set<string>, failing: map<string, RemoveFailure>, listed: seq<string>): nat {
    if listed == [] then 0
    else
      var p := listed[|listed| - 1];
      FailedRemovals(paths, failing, listed[..|listed| - 1]) + (if p != "" && p in paths && p in failing then 1 else 0)
  }

  /** The warning logged when removing `p` raises `f`. */
  function RemovalWarning(p: string, f: RemoveFailure): (w: string)
    ensures |w| > |p| && w[|w| - |p|..] == p
  {
    match f
    case PermissionFailure => "Permission denied when cleaning generated image: " + p
    case OtherOSFailure => "OS error when cleaning generated image: " + p
  }

  /** The warnings of the failed removals, in the order of the list: one per entry `FailedRemovals` counts. */
  function CleanupWarnings(paths: set<string>, failing: map<string, RemoveFailure>, listed: seq<string>): (w: seq<string>)
    ensures |w| == FailedRemovals(paths, failing, listed)
  {
    if listed == [] then []
    else
      var p := listed[|listed| - 1];
      CleanupWarnings(paths, failing, listed[..|listed| - 1])
        + (if p != "" && p in paths && p in failing then [RemovalWarning(p, failing[p])] else [])
  }

  /** The summary logged at the end of a cleanup that cleaned or failed on some file. */
  function SummaryMessage(cleaned: nat, errors: nat): string {
    "Image cleanup: " + IntToString(cleaned) + " cleaned, " + IntToString(errors) + " errors"
  }

  lemma DeletableStep(paths: set<string>, failing: map<string, RemoveFailure>, listed: seq<string>, p: string)
    ensures Deletable(paths, failing, listed + [p])
         == Deletable(paths, failing, listed) + (if p != "" && p in paths && p !in failing then {p} else {})
  {
  }

  /** How one more entry changes what the cleanup has removed, counted and reported, seen from the files still present. */
  lemma CleanupStep(paths: set<string>, failing: map<string, RemoveFailure>, listed: seq<string>, p: string)
    ensures var now := paths - Deletable(paths, failing, listed);
      p != "" && p in now && p !in failing ==>
        && paths - Deletable(paths, failing, listed + [p]) == now - {p}
        && |Deletable(paths, failing, listed + [p])| == |Deletable(paths, failing, listed)| + 1
        && FailedRemovals(paths, failing, listed + [p]) == FailedRemovals(paths, failing, listed)
        && CleanupWarnings(paths, failing, listed + [p]) == CleanupWarnings(paths, failing, listed)
    ensures var now := paths - Deletable(paths, failing, listed);
      p != "" && p in now && p in failing ==>
        && Deletable(paths, failing, listed + [p]) == Deletable(paths, failing, listed)
        && FailedRemovals(paths, failing, listed + [p]) == FailedRemovals(paths, failing, listed) + 1
        && CleanupWarnings(paths, failing, listed + [p])
           == CleanupWarnings(paths, failing, listed) + [RemovalWarning(p, failing[p])]
    ensures var now := paths - Deletable(paths, failing, listed);
      p == "" || p !in now ==>
        && Deletable(paths, failing, listed + [p]) == Deletable(paths, failing, listed)
        && FailedRemovals(paths, failing, listed + [p]) == FailedRemovals(paths, failing, listed)
        && CleanupWarnings(paths, failing, listed + [p]) == CleanupWarnings(paths, failing, listed)
  {
    DeletableStep(paths, failing, listed, p);
    assert (listed + [p])[..|listed|] == listed;
  }

  /** What the cleanup has done once it has gone through `listed`, starting from `paths0`. */
  predicate CleanedUpTo(paths0: set<string>, failing: map<string, RemoveFailure>, listed: seq<string>, hasLogger: bool,
                        paths: set<string>, cleaned: nat, errors: nat, warnings: seq<string>) {
    && paths == paths0 - Deletable(paths0, failing, listed)
    && cleaned == |Deletable(paths0, failing, listed)|
    && errors == FailedRemovals(paths0, failing, listed)
    && warnings == (if hasLogger then CleanupWarnings(paths0, failing, listed) else [])
  }

  /** An entry still present and removable is removed and counted as cleaned. */
  lemma CleanedRemoving(paths0: set<string>, failing: map<string, RemoveFailure>, listed: seq<string>, hasLogger: bool,
                        paths: set<string>, cleaned: nat, errors: nat, warnings: seq<string>, p: string)
    requires CleanedUpTo(paths0, failing, listed, hasLogger, paths, cleaned, errors, warnings)
    requires p != "" && p in paths && p !in failing
    ensures CleanedUpTo(paths0, failing, listed + [p], hasLogger, paths - {p}, cleaned + 1, errors, warnings)
  {
    CleanupStep(paths0, failing, listed, p);
  }

  /** An entry still present that cannot be removed is counted as an error, with its warning. */
  lemma CleanedFailing(paths0: set<string>, failing: map<string, RemoveFailure>, listed: seq<string>, hasLogger: bool,
                       paths: set<string>, cleaned: nat, errors: nat, warnings: seq<string>, p: string)
    requires CleanedUpTo(paths0, failing, listed, hasLogger, paths, cleaned, errors, warnings)
    requires p != "" && p in paths && p in failing
    ensures CleanedUpTo(paths0, failing, listed + [p], hasLogger, paths, cleaned, errors + 1,
                        if hasLogger then warnings + [RemovalWarning(p, failing[p])] else warnings)
  {
    CleanupStep(paths0, failing, listed, p);
  }

  /** An empty entry, or one no longer present, changes nothing. */
  lemma CleanedSkipping(paths0: set<string>, failing: map<string, RemoveFailure>, listed: seq<string>, hasLogger: bool,
                        paths: set<string>, cleaned: nat, errors: nat, warnings: seq<string>, p: string)
    requires CleanedUpTo(paths0, failing, listed, hasLogger, paths, cleaned, errors, warnings)
    requires p == "" || p !in paths
    ensures CleanedUpTo(paths0, failing, listed + [p], hasLogger, paths, cleaned, errors, warnings)
  {
    CleanupStep(paths0, failing, listed, p);
  }

  /**
   * `clean_generated_images(image_paths, logger)`; the warnings are those logged for failed removals,
   * in order, and the summary is the message logged at the end.
   */
  method CleanGeneratedImages(fs: FileSystem, imagePaths: seq<string>, hasLogger: bool)
    returns (cleaned: nat, errors: nat, warnings: seq<string>, summary: Option<string>)
    modifies fs
    ensures fs.failing == old(fs.failing)
    ensures fs.paths == old(fs.paths) - Deletable(old(fs.paths), old(fs.failing), imagePaths)
    ensures cleaned == |Deletable(old(fs.paths), old(fs.failing), imagePaths)|
    ensures errors == FailedRemovals(old(fs.paths), old(fs.failing), imagePaths)
    ensures warnings == if hasLogger then CleanupWarnings(old(fs.paths), old(fs.failing), imagePaths) else []
    ensures summary == if hasLogger && (cleaned > 0 || errors > 0) then Some(SummaryMessage(cleaned, errors)) else None
  {
    if imagePaths == [] {
      return 0, 0, [], None;
    }
    cleaned, errors, warnings := 0, 0, [];
    var i := 0;
    while i < |imagePaths|
      invariant 0 <= i <= |imagePaths|
      invariant fs.failing == old(fs.failing)
      invariant CleanedUpTo(old(fs.paths), old(fs.failing), imagePaths[..i], hasLogger, fs.paths, cleaned, errors, warnings)
    {
      var p := imagePaths[i];
      assert imagePaths[..i + 1] == imagePaths[..i] + [p];
      if p != "" && fs.Exists(p) {
        ghost var before := fs.paths;
        var failure := fs.Unlink(p);
        if failure.None? {
          CleanedRemoving(old(fs.paths), old(fs.failing), imagePaths[..i], hasLogger, before, cleaned, errors, warnings, p);
          cleaned := cleaned + 1;
        } else {
          CleanedFailing(old(fs.paths), old(fs.failing), imagePaths[..i], hasLogger, before, cleaned, errors, warnings, p);
          errors := errors + 1;
          if hasLogger {
            warnings := warnings + [RemovalWarning(p, failure.value)];
          }
        }
      } else {
        CleanedSkipping(old(fs.paths), old(fs.failing), imagePaths[..i], hasLogger, fs.paths, cleaned, errors, warnings, p);
      }
      i := i + 1;
    }
    assert imagePaths[..i] == imagePaths;
    summary := if hasLogger && (cleaned > 0 || errors > 0) then Some(SummaryMessage(cleaned, errors)) else None;
  }

  /** Each entry is cleaned or fails at most once, so the two counts never exceed the list. */
  lemma {:induction false} CleanupCountsBounded(paths: set<string>, failing: map<string, RemoveFailure>, listed: seq<string>)
    ensures |Deletable(paths, failing, listed)| + FailedRemovals(paths, failing, listed) <= |listed|
    decreases |listed|
  {
    if listed != [] {
      var init, p := listed[..|listed| - 1], listed[|listed| - 1];
      assert listed == init + [p];
      CleanupCountsBounded(paths, failing, init);
      DeletableStep(paths, failing, init, p);
    }
  }

  /** The cleanup removes listed paths only; every other file is left as it was. */
  lemma CleanupTouchesListedOnly(paths: set<string>, failing: map<string, RemoveFailure>, listed: seq<string>, q: string)
    requires q !in listed
    ensures q in paths - Deletable(paths, failing, listed) <==> q in paths
  {
  }

  /** An empty list changes nothing and counts nothing; empty entries are never removed. */
  lemma {:induction false} CleanupOfEmptyEntries(paths: set<string>, failing: map<string, RemoveFailure>, listed: seq<string>)
    requires forall i :: 0 <= i < |listed| ==> listed[i] == ""
    ensures Deletable(paths, failing, listed) == {}
    ensures FailedRemovals(paths, failing, listed) == 0
    decreases |listed|
  {
    if listed != [] {
      CleanupOfEmptyEntries(paths, failing, listed[..|listed| - 1]);
    }
  }

  /**
   * A path listed twice is removed, and counted as cleaned, once: dropping the second entry changes neither what is
   * removed nor the count. A path that cannot be removed is tried, and counted as an error, once per entry.
   */
  lemma DuplicateCleanedOnce(paths: set<string>, failing: map<string, RemoveFailure>, listed: seq<string>, i: nat, j: nat)
    requires i < j < |listed| && listed[i] == listed[j]
    ensures var once := listed[..j] + listed[j + 1..];
      && Deletable(paths, failing, listed) == Deletable(paths, failing, once)
      && |Deletable(paths, failing, listed)| == |Deletable(paths, failing, once)|
    ensures var p, once := listed[j], listed[..j] + listed[j + 1..];
      FailedRemovals(paths, failing, listed)
      == FailedRemovals(paths, failing, once) + (if p != "" && p in paths && p in failing then 1 else 0)
  {
    var p, once := listed[j], listed[..j] + listed[j + 1..];
    assert listed == listed[..j] + [p] + listed[j + 1..];
    forall q | q in listed ensures q in once {
      var k :| 0 <= k < |listed| && listed[k] == q;
      if k < j { assert once[k] == q; } else if k == j { assert once[i] == q; } else { assert once[k - 1] == q; }
    }
    assert forall q :: q in once ==> q in listed;
    FailedRemovalsConcat(paths, failing, listed[..j] + [p], listed[j + 1..]);
    FailedRemovalsConcat(paths, failing, listed[..j], listed[j + 1..]);
    FailedRemovalsConcat(paths, failing, listed[..j], [p]);
    assert [p][..0] == [];
  }

  /** The failures of two lists one after the other add up. */
  lemma {:induction false} FailedRemovalsConcat(paths: set<string>, failing: map<string, RemoveFailure>, a: seq<string>, b: seq<string>)
    ensures FailedRemovals(paths, failing, a + b) == FailedRemovals(paths, failing, a) + FailedRemovals(paths, failing, b)
    decreases |b|
  {
    if b == [] {
      assert a + b == a;
    } else {
      var init := b[..|b| - 1];
      assert (a + b)[..|a + b| - 1] == a + init;
      FailedRemovalsConcat(paths, failing, a, init);
    }
  }

  // ----- get_relative_path -----

  /**
   * `get_relative_path(file_path, base_path)`: an empty argument returns `file_path` unchanged; otherwise
   * `relpath` (`os.path.relpath`, `None` when it raises `ValueError`) decides, and a failure falls back to `file_path`.
   */
  function GetRelativePath(filePath: string, basePath: string, relpath: (string, string) -> Option<string>): (r: string)
    ensures filePath == "" || basePath == "" ==> r == filePath
    ensures filePath != "" && basePath != "" && relpath(filePath, basePath).Some? ==> r == relpath(filePath, basePath).value
    ensures relpath(filePath, basePath).None? ==> r == filePath
  {
    if filePath == "" || basePath == "" then filePath
    else match relpath(filePath, basePath)
      case Some(rel) => rel
      case None => filePath
  }
}
