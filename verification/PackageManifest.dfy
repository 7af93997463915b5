/** The manifest of a PDF model package (src-tauri/src/pdf_models.rs, validate_manifest). */
module PackageManifest {

  datatype PackageFile = PackageFile(path: string, size: nat, sha256: string)

  datatype Manifest = Manifest(
    schemaVersion: nat, packageId: string, packageVersion: string, doclingVersion: string, target: string,
    parser: string, modelsDir: string, files: seq<PackageFile>)

  const PACKAGE_ID := "docling-pdf-local"
  const PACKAGE_VERSION := "1"
  const PACKAGE_SCHEMA_VERSION := 1
  const DOCLING_VERSION := "2.113.0"
  const PACKAGE_MANIFEST := "agnes-pdf-model-package.json"
  const MAX_PACKAGE_FILES := 20000
  const MAX_PACKAGE_UNPACKED_BYTES := 5 * 1024 * 1024 * 1024
  const MAX_U64 := 0xFFFF_FFFF_FFFF_FFFF

  predicate IsHexDigit(c: char) {
    '0' <= c <= '9' || 'a' <= c <= 'f' || 'A' <= c <= 'F'
  }

  predicate IsHash(text: string) {
    |text| == 64 && forall k :: 0 <= k < |text| ==> IsHexDigit(text[k])
  }

  function TotalSize(files: seq<PackageFile>): nat {
    if files == [] then 0 else TotalSize(files[..|files| - 1]) + files[|files| - 1].size
  }

  predicate FileOk(isSafe: string -> bool, file: PackageFile) {
    isSafe(file.path) && file.size > 0 && IsHash(file.sha256)
  }

  predicate DistinctPaths(files: seq<PackageFile>) {
    forall i, j :: 0 <= i < j < |files| ==> files[i].path != files[j].path
  }

  predicate FilesOk(isSafe: string -> bool, files: seq<PackageFile>) {
    (forall file <- files :: FileOk(isSafe, file)) && DistinctPaths(files)
  }

  function Paths(files: seq<PackageFile>): set<string> {
    set file <- files :: file.path
  }

  predicate HeaderOk(isSafe: string -> bool, target: string, m: Manifest) {
    && m.schemaVersion == PACKAGE_SCHEMA_VERSION && m.packageId == PACKAGE_ID && m.packageVersion == PACKAGE_VERSION
    && m.target == target && m.doclingVersion == DOCLING_VERSION
    && 0 < |m.files| <= MAX_PACKAGE_FILES
    && isSafe(m.parser) && isSafe(m.modelsDir)
  }

  /** A manifest for this program and platform, with safe and distinct paths, whole hashes, and a bounded total size. */
  predicate ManifestOk(isSafe: string -> bool, target: string, m: Manifest) {
    && HeaderOk(isSafe, target, m)
    && FilesOk(isSafe, m.files)
    && TotalSize(m.files) <= MAX_PACKAGE_UNPACKED_BYTES
  }

  lemma {:induction false} TotalGrows(files: seq<PackageFile>, n: nat)
    requires n <= |files|
    ensures TotalSize(files[..n]) <= TotalSize(files)
    decreases |files|
  {
    if n == |files| {
      assert files[..n] == files;
    } else {
      var shorter := files[..|files| - 1];
      TotalGrows(shorter, n);
      assert shorter[..n] == files[..n];
    }
  }

  lemma FilesOkSnoc(isSafe: string -> bool, files: seq<PackageFile>, file: PackageFile)
    ensures FilesOk(isSafe, files + [file]) <==>
              FilesOk(isSafe, files) && FileOk(isSafe, file) && file.path !in Paths(files)
  {
    var more := files + [file];
    assert more[|files|] == file;
    assert forall each <- files :: each in more;
    if FilesOk(isSafe, more) {
      forall i, j | 0 <= i < j < |files|
        ensures files[i].path != files[j].path
      {
        assert more[i].path != more[j].path;
      }
      forall each <- files
        ensures each.path != file.path
      {
        var i :| 0 <= i < |files| && files[i] == each;
        assert more[i].path != more[|files|].path;
      }
    }
  }

  lemma {:induction false} FilesOkBefore(isSafe: string -> bool, files: seq<PackageFile>, n: nat)
    requires n <= |files| && FilesOk(isSafe, files)
    ensures FilesOk(isSafe, files[..n])
    decreases |files|
  {
    if n == |files| {
      assert files[..n] == files;
    } else {
      var shorter := files[..|files| - 1];
      assert files == shorter + [files[|files| - 1]];
      FilesOkSnoc(isSafe, shorter, files[|files| - 1]);
      FilesOkBefore(isSafe, shorter, n);
      assert shorter[..n] == files[..n];
    }
  }

  lemma TakeOneMore(files: seq<PackageFile>, i: nat)
    requires i < |files|
    ensures files[..i + 1] == files[..i] + [files[i]]
    ensures Paths(files[..i + 1]) == Paths(files[..i]) + {files[i].path}
    ensures TotalSize(files[..i + 1]) == TotalSize(files[..i]) + files[i].size
  {
    var more := files[..i + 1];
    assert more == files[..i] + [files[i]];
    assert more[..i] == files[..i] && more[i] == files[i];
    assert forall each <- files[..i] :: each in more;
  }

  lemma BadFile(isSafe: string -> bool, files: seq<PackageFile>, i: nat)
    requires i < |files| && (!FileOk(isSafe, files[i]) || files[i].path in Paths(files[..i]))
    ensures !FilesOk(isSafe, files)
  {
    if FilesOk(isSafe, files) {
      FilesOkBefore(isSafe, files, i + 1);
      TakeOneMore(files, i);
      FilesOkSnoc(isSafe, files[..i], files[i]);
      assert false;
    }
  }

  /** Sixty-four hexadecimal digits. */
  method CheckHash(text: string) returns (ok: bool)
    ensures ok == IsHash(text)
  {
    ok := |text| == 64;
    for k := 0 to |text|
      invariant ok <==> |text| == 64 && forall j :: 0 <= j < k ==> IsHexDigit(text[j])
    {
      var c := text[k];
      ok := ok && (('0' <= c <= '9') || ('a' <= c <= 'f') || ('A' <= c <= 'F'));
    }
  }

  /** The files one by one, with the running total kept within 64 bits. */
  method ValidateFiles(isSafe: string -> bool, files: seq<PackageFile>) returns (ok: bool)
    ensures ok == (FilesOk(isSafe, files) && TotalSize(files) <= MAX_PACKAGE_UNPACKED_BYTES)
  {
    var paths: set<string>, total: nat, i := {}, 0, 0;
    while i < |files|
      invariant 0 <= i <= |files|
      invariant paths == Paths(files[..i])
      invariant FilesOk(isSafe, files[..i])
      invariant total == TotalSize(files[..i]) <= MAX_U64
    {
      var file := files[i];
      var hex := CheckHash(file.sha256);
      if !isSafe(file.path) || file.size == 0 || !hex || file.path in paths {
        BadFile(isSafe, files, i);
        return false;
      }
      TakeOneMore(files, i);
      if total + file.size > MAX_U64 {
        TotalGrows(files, i + 1);
        return false;
      }
      FilesOkSnoc(isSafe, files[..i], file);
      paths := paths + {file.path};
      total := total + file.size;
      i := i + 1;
    }
    assert files[..i] == files;
    ok := total <= MAX_PACKAGE_UNPACKED_BYTES;
  }

  method ValidateManifest(isSafe: string -> bool, target: string, m: Manifest) returns (ok: bool)
    ensures ok == ManifestOk(isSafe, target, m)
  {
    ok := m.schemaVersion == 1 && m.packageId == "docling-pdf-local" && m.packageVersion == "1" && m.target == target
          && m.doclingVersion == "2.113.0" && |m.files| != 0 && |m.files| <= 20000;
    ok := ok && isSafe(m.parser) && isSafe(m.modelsDir);
    if ok {
      ok := ValidateFiles(isSafe, m.files);
    }
  }

  /** What an accepted manifest promises: everything it names is safe, distinct, whole, and bounded in size. */
  lemma AcceptedIsSafe(isSafe: string -> bool, target: string, m: Manifest)
    requires ManifestOk(isSafe, target, m)
    ensures m.target == target && m.packageVersion == "1" && m.doclingVersion == "2.113.0" && 1 <= |m.files| <= 20000
    ensures isSafe(m.parser) && isSafe(m.modelsDir)
    ensures forall i :: 0 <= i < |m.files| ==>
              isSafe(m.files[i].path) && m.files[i].size > 0 && |m.files[i].sha256| == 64
    ensures forall i, k :: 0 <= i < |m.files| && 0 <= k < 64 ==> m.files[i].sha256[k] in "0123456789abcdefABCDEF"
    ensures forall i, j :: 0 <= i < j < |m.files| ==> m.files[i].path != m.files[j].path
    ensures TotalSize(m.files) <= 5 * 1024 * 1024 * 1024
  {
    forall i | 0 <= i < |m.files|
      ensures FileOk(isSafe, m.files[i])
    {
      assert m.files[i] in m.files;
    }
    forall i, k | 0 <= i < |m.files| && 0 <= k < 64
      ensures m.files[i].sha256[k] in "0123456789abcdefABCDEF"
    {
      HexIsDigit(m.files[i].sha256[k]);
    }
  }

  lemma HexIsDigit(c: char)
    requires IsHexDigit(c)
    ensures c in "0123456789abcdefABCDEF"
  {
    var digits := "0123456789abcdefABCDEF";
    var k := if '0' <= c <= '9' then c as int - '0' as int
             else if 'a' <= c <= 'f' then c as int - 'a' as int + 10 else c as int - 'A' as int + 16;
    assert digits[k] == c;
  }

  /** Anything else is refused: each of the conditions is enough to refuse. */
  lemma RefusedIff(isSafe: string -> bool, target: string, m: Manifest)
    ensures !ManifestOk(isSafe, target, m) <==>
              || m.schemaVersion != 1 || m.packageId != "docling-pdf-local" || m.packageVersion != "1"
              || m.target != target || m.doclingVersion != "2.113.0" || |m.files| == 0 || |m.files| > 20000
              || !isSafe(m.parser) || !isSafe(m.modelsDir)
              || (exists file <- m.files :: !isSafe(file.path) || file.size == 0 || !IsHash(file.sha256))
              || !DistinctPaths(m.files) || TotalSize(m.files) > 5 * 1024 * 1024 * 1024
  {
  }

  // ----- the files by path

  /** The table of files that the extraction looks paths up in. */
  function Expected(files: seq<PackageFile>): map<string, PackageFile> {
    if files == [] then map[]
    else
      var file := files[|files| - 1];
      Expected(files[..|files| - 1])[file.path := file]
  }

  lemma {:induction false} ExpectedAreListed(files: seq<PackageFile>)
    ensures forall path <- Expected(files) :: Expected(files)[path] in files && Expected(files)[path].path == path
  {
    if files != [] {
      ExpectedAreListed(files[..|files| - 1]);
    }
  }

  lemma {:induction false} ListedAreExpected(files: seq<PackageFile>)
    requires DistinctPaths(files)
    ensures forall file <- files :: file.path in Expected(files) && Expected(files)[file.path] == file
  {
    if files != [] {
      var n := |files| - 1;
      ListedAreExpected(files[..n]);
      forall file <- files
        ensures file.path in Expected(files) && Expected(files)[file.path] == file
      {
        var i :| 0 <= i < |files| && files[i] == file;
        if i < n {
          assert files[..n][i] == file;
        }
      }
    }
  }

  /** Counting is enough: a part of a set with as many elements is all of it. */
  lemma SameSize(part: set<string>, all: set<string>)
    requires part <= all && |part| == |all|
    ensures part == all
  {
    var rest := all - part;
    assert all == part + rest;
    assert |all| == |part| + |rest|;
  }
}
