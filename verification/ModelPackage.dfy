/** Extracting and installing a PDF model package (src-tauri/src/pdf_models.rs). */
module ModelPackage {
  import opened Sequences
  import opened Disk
  import opened Installation
  import opened PackageManifest

  type Bytes = seq<bv8>

  /** A file's bytes, or the manifest as it is written next to the files. */
  datatype Content = Data(data: Bytes) | Listing(manifest: Manifest)

  /**
   * An archive entry; it has no path when the stored one is unsafe or is not text. `size` is the length it declares,
   * `data` what it unpacks to, and `blocks` how much each read would return.
   */
  datatype Entry = Entry(
    path: Option<string>, encrypted: bool, isDir: bool, isLink: bool, size: nat, data: Bytes, blocks: nat -> nat)

  /**
   * Code that is not part of this model: path checks, the digest, JSON with the length of a manifest as it is written,
   * and the platform's name.
   */
  datatype Platform = Platform(
    isSafe: string -> bool, sha256: Bytes -> string, parse: Bytes -> Option<Manifest>, written: Manifest -> nat,
    target: string)

  const MAX_ARCHIVE_BYTES := 3 * 1024 * 1024 * 1024
  const MAX_MANIFEST_BYTES := 1024 * 1024
  const BUFFER := 128 * 1024

  // ----- what an installed package is

  /** A file with the listed digest, and at least as long as listed. */
  predicate Matches(platform: Platform, content: Content, file: PackageFile) {
    content.Data? && platform.sha256(content.data) == file.sha256 && file.size <= |content.data|
  }

  /** Exactly the listed files, each matching, and the manifest itself. */
  predicate Complete(platform: Platform, package: Package<Content>, m: Manifest) {
    && package.Keys == Expected(m.files).Keys + {PACKAGE_MANIFEST}
    && package[PACKAGE_MANIFEST] == Listing(m)
    && (forall path <- Expected(m.files) :: Matches(platform, package[path], Expected(m.files)[path]))
  }

  /** Every listed file is exactly as long as listed. */
  predicate Exact(package: Package<Content>, m: Manifest) {
    forall path <- Expected(m.files) ::
      path in package && package[path].Data? && |package[path].data| == Expected(m.files)[path].size
  }

  /** What a manifest file says, if it is not too long; a written manifest decodes to itself. */
  function Decoded(platform: Platform, content: Content): Option<Manifest> {
    match content
    case Listing(m) => if platform.written(m) <= MAX_MANIFEST_BYTES then Some(m) else None
    case Data(data) => if |data| <= MAX_MANIFEST_BYTES then platform.parse(data) else None
  }

  /** The package can be used: its manifest can be loaded, and is valid. */
  predicate Loads(platform: Platform, package: Package<Content>) {
    && PACKAGE_MANIFEST in package
    && var manifest := Decoded(platform, package[PACKAGE_MANIFEST]);
       manifest.Some? && ManifestOk(platform.isSafe, platform.target, manifest.value)
  }

  /** No entry unpacks to more than it declares. */
  ghost predicate Honest(archive: seq<Entry>) {
    forall entry <- archive :: |entry.data| <= entry.size
  }

  // ----- reading in blocks

  /** What a read returns that would like to return `want`: nothing only at the end, and at most a buffer full. */
  function Count(want: nat, left: nat): (n: nat)
    ensures n <= left && n <= BUFFER && (n == 0 <==> left == 0)
  {
    if left == 0 then 0
    else if want == 0 then 1
    else if want <= left && want <= BUFFER then want
    else if left <= BUFFER then left
    else BUFFER
  }

  /** How many of `left` bytes are read until `size` are there, from the k-th block on. */
  function BytesRead(size: nat, left: nat, blocks: nat -> nat, k: nat): (n: nat)
    ensures n <= left && (size <= left ==> size <= n) && n < size + BUFFER
    decreases left
  {
    if size == 0 || left == 0 then 0
    else
      var n := Count(blocks(k), left);
      n + BytesRead(if size <= n then 0 else size - n, left - n, blocks, k + 1)
  }

  /** One byte at a time, and two at the end. */
  function Overshooting(size: nat): nat -> nat {
    k => if k + 1 < size then 1 else 2
  }

  lemma {:induction false} OvershootsByOne(size: nat, left: nat, k: nat)
    requires k < size && size - k < left
    ensures BytesRead(size - k, left, Overshooting(size), k) == size - k + 1
    decreases size - k
  {
    if k + 1 < size {
      OvershootsByOne(size, left - 1, k + 1);
    }
  }

  /** A file comes out as long as listed for all block sizes exactly when its entry holds no byte too many. */
  lemma ExactForAllBlocksIff(size: nat, length: nat)
    requires 0 < size <= length
    ensures (forall blocks: nat -> nat :: BytesRead(size, length, blocks, 0) == size) <==> length == size
  {
    if size < length {
      OvershootsByOne(size, length, 0);
      assert BytesRead(size, length, Overshooting(size), 0) != size;
    }
  }

  // ----- the extraction loop

  /**
   * The files of an unfinished extraction: those seen, each matching, and exactly as long as listed if no entry
   * unpacks to more than it declares; and the manifest if it came by.
   */
  predicate Partly(platform: Platform, package: Package<Content>, m: Manifest, seen: set<string>, listed: bool,
                   honest: bool) {
    && seen <= Expected(m.files).Keys && PACKAGE_MANIFEST !in seen
    && package.Keys == seen + (if listed then {PACKAGE_MANIFEST} else {})
    && (listed ==> package[PACKAGE_MANIFEST] == Listing(m))
    && (forall path <- seen :: Matches(platform, package[path], Expected(m.files)[path]))
    && (honest ==> forall path <- seen :: |package[path].data| == Expected(m.files)[path].size)
  }

  lemma PartlyMore(platform: Platform, package: Package<Content>, m: Manifest, seen: set<string>, listed: bool,
                   honest: bool, path: string, content: Content)
    requires Partly(platform, package, m, seen, listed, honest)
    requires path in Expected(m.files) && path != PACKAGE_MANIFEST
    requires Matches(platform, content, Expected(m.files)[path])
    requires honest ==> |content.data| == Expected(m.files)[path].size
    ensures Partly(platform, package[path := content], m, seen + {path}, listed, honest)
  {
  }

  lemma PartlyListed(platform: Platform, package: Package<Content>, m: Manifest, seen: set<string>, listed: bool,
                     honest: bool)
    requires Partly(platform, package, m, seen, listed, honest)
    ensures Partly(platform, package[PACKAGE_MANIFEST := Listing(m)], m, seen, true, honest)
  {
  }

  /** When as many files were seen as are listed, all of them were: the package is complete. */
  lemma CountingIsEnough(platform: Platform, package: Package<Content>, m: Manifest, seen: set<string>, honest: bool)
    requires Partly(platform, package, m, seen, true, honest) && |seen| == |Expected(m.files)|
    ensures Complete(platform, package, m) && PACKAGE_MANIFEST !in Expected(m.files)
    ensures honest ==> Exact(package, m)
  {
    assert |Expected(m.files).Keys| == |Expected(m.files)|;
    SameSize(seen, Expected(m.files).Keys);
  }

  /** The blocks so far are a beginning of the entry, and the rest will be read as from the start. */
  predicate ReadSo(entry: Entry, size: nat, hashed: Bytes, remaining: nat, k: nat) {
    && |hashed| <= |entry.data| && hashed == entry.data[..|hashed|]
    && |hashed| + BytesRead(remaining, |entry.data| - |hashed|, entry.blocks, k)
    == BytesRead(size, |entry.data|, entry.blocks, 0)
    && size <= |hashed| + remaining
  }

  lemma ReadMore(entry: Entry, size: nat, hashed: Bytes, remaining: nat, k: nat)
    requires ReadSo(entry, size, hashed, remaining, k) && remaining > 0 && |hashed| < |entry.data|
    ensures var count := Count(entry.blocks(k), |entry.data| - |hashed|);
            && |hashed| + count <= |entry.data|
            && ReadSo(entry, size, hashed + entry.data[|hashed|..|hashed| + count],
                      if remaining <= count then 0 else remaining - count, k + 1)
  {
    var count := Count(entry.blocks(k), |entry.data| - |hashed|);
    assert hashed + entry.data[|hashed|..|hashed| + count] == entry.data[..|hashed| + count];
  }

  /** Reads a block and writes the file as it is with it. */
  method WriteBlock(volume: Volume<Content>, staging: string, files: Package<Content>, ghost was: Dirs<Content>,
                    ghost before: nat) returns (ok: bool)
    requires volume.Valid() && before <= |volume.trace|
    requires OnlyAt(volume.dirs, was, {staging}) && OnlyStaged(volume.trace[before..], was, staging)
    modifies volume
    ensures volume.Valid() && old(volume.trace) <= volume.trace && old(volume.failures) <= volume.failures
    ensures OnlyStaged(volume.trace[before..], was, staging) && OnlyAt(volume.dirs, was, {staging})
    ensures ok ==> volume.dirs == was[staging := files]
    ensures ok == !volume.fails(old(volume.step)) && old(volume.step) <= volume.step
  {
    ok := volume.Attempt();
    if ok {
      PutStaged(volume, staging, files, was, before);
      assert OnlyAt(volume.dirs, was, {staging});
    }
  }

  /** Reads one file in blocks and writes them as they come. */
  method ReadBlocks(volume: Volume<Content>, staging: string, files: Package<Content>, path: string, entry: Entry,
                    size: nat, ghost was: Dirs<Content>, ghost before: nat) returns (read: Option<Bytes>)
    requires volume.Valid() && before <= |volume.trace|
    requires volume.dirs == was[staging := files[path := Data([])]] && OnlyStaged(volume.trace[before..], was, staging)
    modifies volume
    ensures volume.Valid() && old(volume.trace) <= volume.trace && old(volume.failures) <= volume.failures
    ensures OnlyStaged(volume.trace[before..], was, staging) && OnlyAt(volume.dirs, was, {staging})
    ensures read.Some? ==>
              && volume.dirs == was[staging := files[path := Data(read.value)]]
              && read.value == entry.data[..BytesRead(size, |entry.data|, entry.blocks, 0)]
              && size <= |read.value|
    ensures old(volume.step) <= volume.step
    ensures AllWell(volume.fails, old(volume.step)) && size <= |entry.data| ==> read.Some?
  {
    var hashed: Bytes, remaining: nat, k := [], size, 0;
    assert OnlyAt(volume.dirs, was, {staging});
    while remaining > 0
      invariant volume.Valid() && before <= |volume.trace| && old(volume.trace) <= volume.trace
      invariant old(volume.failures) <= volume.failures
      invariant OnlyStaged(volume.trace[before..], was, staging) && OnlyAt(volume.dirs, was, {staging})
      invariant volume.dirs == was[staging := files[path := Data(hashed)]]
      invariant ReadSo(entry, size, hashed, remaining, k) && old(volume.step) <= volume.step
      invariant remaining > 0 ==> |hashed| + remaining == size
      decreases remaining
    {
      var count := Count(entry.blocks(k), |entry.data| - |hashed|);
      if count == 0 { return None; }
      ReadMore(entry, size, hashed, remaining, k);
      k, remaining := k + 1, if remaining <= count then 0 else remaining - count;
      hashed := hashed + entry.data[|hashed|..|hashed| + count];
      var ok := WriteBlock(volume, staging, files[path := Data(hashed)], was, before);
      if !ok { return None; }
    }
    AllRead(entry, size, hashed, k);
    return Some(hashed);
  }

  lemma AllRead(entry: Entry, size: nat, hashed: Bytes, k: nat)
    requires ReadSo(entry, size, hashed, 0, k)
    ensures hashed == entry.data[..BytesRead(size, |entry.data|, entry.blocks, 0)] && size <= |hashed|
  {
  }

  /** The entry is long enough, and what is read of it has the listed digest. */
  predicate Fits(platform: Platform, entry: Entry, expected: PackageFile) {
    && expected.size <= |entry.data|
    && platform.sha256(entry.data[..BytesRead(expected.size, |entry.data|, entry.blocks, 0)]) == expected.sha256
  }

  /** Creates the file, reads it in blocks, and compares the digest. */
  method ReadFile(platform: Platform, volume: Volume<Content>, staging: string, files: Package<Content>, path: string,
                  entry: Entry, expected: PackageFile, ghost was: Dirs<Content>, ghost before: nat)
    returns (read: Option<Bytes>)
    requires volume.Valid() && before <= |volume.trace|
    requires volume.dirs == was[staging := files] && OnlyStaged(volume.trace[before..], was, staging)
    modifies volume
    ensures volume.Valid() && old(volume.trace) <= volume.trace && old(volume.failures) <= volume.failures
    ensures OnlyStaged(volume.trace[before..], was, staging) && OnlyAt(volume.dirs, was, {staging})
    ensures read.Some? ==>
              && volume.dirs == was[staging := files[path := Data(read.value)]]
              && read.value == entry.data[..BytesRead(expected.size, |entry.data|, entry.blocks, 0)]
              && Matches(platform, Data(read.value), expected)
    ensures old(volume.step) <= volume.step
    ensures AllWell(volume.fails, old(volume.step)) && Fits(platform, entry, expected) ==> read.Some?
  {
    assert OnlyAt(volume.dirs, was, {staging});
    var created := WriteBlock(volume, staging, files[path := Data([])], was, before);
    if !created { return None; }
    read := ReadBlocks(volume, staging, files, path, entry, expected.size, was, before);
    if read.Some? && platform.sha256(read.value) != expected.sha256 {
      return None;
    }
  }

  /** The position of the last of the first `n` entries with the manifest's name, or -1. */
  function LastManifest(archive: seq<Entry>, n: nat): (at: int)
    requires n <= |archive|
    ensures -1 <= at < n && (at >= 0 ==> archive[at].path == Some(PACKAGE_MANIFEST))
    ensures forall k :: at < k < n ==> archive[k].path != Some(PACKAGE_MANIFEST)
  {
    if n == 0 then -1
    else if archive[n - 1].path == Some(PACKAGE_MANIFEST) then n - 1
    else LastManifest(archive, n - 1)
  }

  /** The entry that the manifest is read from; of several with its name the last counts. */
  function ManifestEntry(archive: seq<Entry>): (entry: Option<Entry>)
    ensures entry.Some? ==> entry.value in archive && entry.value.path == Some(PACKAGE_MANIFEST)
    ensures entry.None? <==> forall k :: 0 <= k < |archive| ==> archive[k].path != Some(PACKAGE_MANIFEST)
  {
    var at := LastManifest(archive, |archive|);
    if at < 0 then None else Some(archive[at])
  }

  /** The path of an entry that is a file, and not the manifest. */
  function FileOf(entry: Entry): set<string> {
    if entry.path.Some? && entry.path.value != PACKAGE_MANIFEST && !entry.isDir then {entry.path.value} else {}
  }

  /** The manifest, a directory, or a listed file of the declared length with the listed digest; nothing encrypted. */
  predicate Acceptable(platform: Platform, entry: Entry, m: Manifest) {
    && !entry.encrypted && entry.path.Some?
    && forall path <- FileOf(entry) ::
         && !entry.isLink && path in Expected(m.files) && entry.size == Expected(m.files)[path].size
         && Fits(platform, entry, Expected(m.files)[path])
  }

  /** The files among the first `n` entries. */
  function FilesOf(archive: seq<Entry>, n: nat): set<string>
    requires n <= |archive|
  {
    if n == 0 then {} else FilesOf(archive, n - 1) + FileOf(archive[n - 1])
  }

  /** Every entry may be extracted, and together they are the listed files, each once. */
  ghost predicate Unpacks(platform: Platform, archive: seq<Entry>, m: Manifest) {
    && (forall k :: 0 <= k < |archive| ==>
          Acceptable(platform, archive[k], m) && FileOf(archive[k]) !! FilesOf(archive, k))
    && FilesOf(archive, |archive|) == Expected(m.files).Keys
  }

  /** The manifest of an archive that can be read: the last entry of its name, not too long, decoded, and valid. */
  ghost predicate Manifests(platform: Platform, archive: seq<Entry>, m: Manifest) {
    && |archive| <= MAX_PACKAGE_FILES + 256
    && ManifestEntry(archive).Some? && ManifestEntry(archive).value.size <= MAX_MANIFEST_BYTES
    && platform.parse(ManifestEntry(archive).value.data) == Some(m)
    && ManifestOk(platform.isSafe, platform.target, m)
  }

  /** One entry: the manifest, a directory, or a listed file seen for the first time; anything else ends it all. */
  method ExtractEntry(platform: Platform, volume: Volume<Content>, staging: string, entry: Entry, m: Manifest,
                      files: Package<Content>, seen: set<string>, ghost listed: bool, ghost honest: bool,
                      ghost was: Dirs<Content>, ghost before: nat)
    returns (ok: bool, files': Package<Content>, seen': set<string>)
    requires volume.Valid() && before <= |volume.trace|
    requires volume.dirs == was[staging := files] && OnlyStaged(volume.trace[before..], was, staging)
    requires Partly(platform, files, m, seen, listed, honest) && (honest ==> |entry.data| <= entry.size)
    modifies volume
    ensures volume.Valid() && old(volume.trace) <= volume.trace && old(volume.failures) <= volume.failures
    ensures OnlyStaged(volume.trace[before..], was, staging) && OnlyAt(volume.dirs, was, {staging})
    ensures ok ==>
              && volume.dirs == was[staging := files']
              && Partly(platform, files', m, seen', listed || entry.path == Some(PACKAGE_MANIFEST), honest)
              && seen' == seen + FileOf(entry)
    ensures old(volume.step) <= volume.step
    ensures AllWell(volume.fails, old(volume.step)) && Acceptable(platform, entry, m) && FileOf(entry) !! seen ==> ok
  {
    files', seen' := files, seen;
    ok := volume.Attempt();
    ok := ok && !entry.encrypted && entry.path.Some?;
    if !ok { return; }
    var path := entry.path.value;
    if path == PACKAGE_MANIFEST {
      PartlyListed(platform, files, m, seen, listed, honest);
      files' := files[PACKAGE_MANIFEST := Listing(m)];
      PutStaged(volume, staging, files', was, before);
      return;
    }
    if entry.isDir {
      return;
    }
    var expected := Expected(m.files);
    if entry.isLink || path !in expected || entry.size != expected[path].size || path in seen {
      return false, files', seen';
    }
    var read := ReadFile(platform, volume, staging, files, path, entry, expected[path], was, before);
    ok := read.Some?;
    if ok {
      PartlyMore(platform, files, m, seen, listed, honest, path, Data(read.value));
      files', seen' := files[path := Data(read.value)], seen + {path};
    }
  }

  /** The manifest of the archive, when it can be read and is valid. */
  method ReadManifest(platform: Platform, archive: seq<Entry>, readable: bool) returns (manifest: Option<Manifest>)
    ensures forall m :: manifest == Some(m) <==> readable && Manifests(platform, archive, m)
    ensures manifest.Some? ==>
              && ManifestOk(platform.isSafe, platform.target, manifest.value)
              && exists entry <- archive :: entry.path == Some(PACKAGE_MANIFEST)
  {
    var entry := ManifestEntry(archive);
    if !readable || |archive| > MAX_PACKAGE_FILES + 256 || entry.None? || entry.value.size > MAX_MANIFEST_BYTES {
      return None;
    }
    manifest := platform.parse(entry.value.data);
    if manifest.Some? {
      var ok := ValidateManifest(platform.isSafe, platform.target, manifest.value);
      if !ok {
        return None;
      }
    }
  }

  predicate ListedBefore(archive: seq<Entry>, index: nat) {
    exists k :: 0 <= k < index && k < |archive| && archive[k].path == Some(PACKAGE_MANIFEST)
  }

  /** Extracts into a directory of its own; what comes out whole is exactly what the manifest lists. */
  method ExtractAndVerify(platform: Platform, volume: Volume<Content>, archive: seq<Entry>, readable: bool,
                          staging: string) returns (manifest: Option<Manifest>)
    requires volume.Valid() && staging !in volume.dirs
    modifies volume
    ensures volume.Valid() && old(volume.trace) <= volume.trace && old(volume.failures) <= volume.failures
    ensures OnlyStaged(volume.trace[|old(volume.trace)|..], old(volume.dirs), staging)
    ensures OnlyAt(volume.dirs, old(volume.dirs), {staging})
    ensures manifest.Some? ==>
              && ManifestOk(platform.isSafe, platform.target, manifest.value)
              && staging in volume.dirs && volume.dirs == old(volume.dirs)[staging := volume.dirs[staging]]
              && Complete(platform, volume.dirs[staging], manifest.value)
              && (Honest(archive) ==> Exact(volume.dirs[staging], manifest.value))
              && PACKAGE_MANIFEST !in Expected(manifest.value.files)
              && readable && Manifests(platform, archive, manifest.value)
    // When nothing fails, every archive is extracted whose manifest is valid and that unpacks to what it lists.
    ensures old(volume.step) <= volume.step
    ensures forall m :: (AllWell(volume.fails, old(volume.step)) && readable
                         && Manifests(platform, archive, m) && Unpacks(platform, archive, m)) ==> manifest == Some(m)
  {
    ghost var was, before := volume.dirs, |volume.trace|;
    var found := ReadManifest(platform, archive, readable);
    var created := volume.Attempt();
    if found.None? || !created { return None; }
    PutStaged(volume, staging, map[], was, before);
    var ok, files, seen := ExtractEntries(platform, volume, archive, found.value, staging, was, before);
    if !ok || |seen| != |Expected(found.value.files)| { return None; }
    CountingIsEnough(platform, files, found.value, seen, Honest(archive));
    assert OnlyAt(volume.dirs, was, {staging});
    return found;
  }

  /** All entries in turn. */
  method ExtractEntries(platform: Platform, volume: Volume<Content>, archive: seq<Entry>, m: Manifest, staging: string,
                        ghost was: Dirs<Content>, ghost before: nat)
    returns (ok: bool, files: Package<Content>, seen: set<string>)
    requires volume.Valid() && before <= |volume.trace|
    requires volume.dirs == was[staging := map[]] && OnlyStaged(volume.trace[before..], was, staging)
    requires exists entry <- archive :: entry.path == Some(PACKAGE_MANIFEST)
    modifies volume
    ensures volume.Valid() && old(volume.trace) <= volume.trace && old(volume.failures) <= volume.failures
    ensures OnlyStaged(volume.trace[before..], was, staging) && OnlyAt(volume.dirs, was, {staging})
    ensures ok ==> volume.dirs == was[staging := files] && Partly(platform, files, m, seen, true, Honest(archive))
    ensures old(volume.step) <= volume.step
    ensures ok ==> seen == FilesOf(archive, |archive|)
    ensures AllWell(volume.fails, old(volume.step)) && Unpacks(platform, archive, m) ==> ok
  {
    files, seen, ok := map[], {}, true;
    var index := 0;
    while index < |archive|
      invariant 0 <= index <= |archive|
      invariant volume.Valid() && before <= |volume.trace| && old(volume.trace) <= volume.trace
      invariant old(volume.failures) <= volume.failures
      invariant volume.dirs == was[staging := files] && OnlyStaged(volume.trace[before..], was, staging)
      invariant Partly(platform, files, m, seen, ListedBefore(archive, index), Honest(archive))
      invariant seen == FilesOf(archive, index) && old(volume.step) <= volume.step
    {
      ghost var listed, honest := ListedBefore(archive, index), Honest(archive);
      ListedMore(archive, index);
      assert archive[index] in archive;
      ok, files, seen :=
        ExtractEntry(platform, volume, staging, archive[index], m, files, seen, listed, honest, was, before);
      if !ok { return; }
      index := index + 1;
    }
    assert ListedBefore(archive, |archive|);
    assert OnlyAt(volume.dirs, was, {staging});
  }

  lemma ListedMore(archive: seq<Entry>, index: nat)
    requires index < |archive|
    ensures ListedBefore(archive, index + 1)
         == (ListedBefore(archive, index) || archive[index].path == Some(PACKAGE_MANIFEST))
  {
  }

  // ----- installing

  /** The parser and the model list are among the files. */
  predicate Usable(package: Package<Content>, m: Manifest) {
    m.parser in package && m.modelsDir + "/agnes-models.json" in package
  }

  /** A package that may be put in place: all of it, and fit to run. */
  predicate IsNew(platform: Platform, package: Package<Content>, m: Manifest) {
    ManifestOk(platform.isSafe, platform.target, m) && Complete(platform, package, m) && Usable(package, m)
  }

  /** What is put in place can be loaded exactly when its manifest, as it is written, is not too long. */
  lemma NewLoadsIff(platform: Platform, package: Package<Content>, m: Manifest)
    requires IsNew(platform, package, m)
    ensures Loads(platform, package) <==> platform.written(m) <= MAX_MANIFEST_BYTES
  {
    assert PACKAGE_MANIFEST in package.Keys;
  }

  /** The manifest of the installed package, if there is one that can be loaded. */
  method LoadInstalledManifest(platform: Platform, volume: Volume<Content>, readable: bool)
    returns (manifest: Option<Manifest>)
    ensures manifest.Some? <==>
              readable && PACKAGE_VERSION in volume.dirs && Loads(platform, volume.dirs[PACKAGE_VERSION])
    ensures manifest.Some? ==>
              Decoded(platform, volume.dirs[PACKAGE_VERSION][PACKAGE_MANIFEST]) == manifest
  {
    if PACKAGE_VERSION !in volume.dirs || PACKAGE_MANIFEST !in volume.dirs[PACKAGE_VERSION] || !readable {
      return None;
    }
    match volume.dirs[PACKAGE_VERSION][PACKAGE_MANIFEST] {
      case Listing(m) => manifest := if platform.written(m) > 1024 * 1024 then None else Some(m);
      case Data(data) => manifest := if |data| > 1024 * 1024 then None else platform.parse(data);
    }
    if manifest.Some? {
      var ok := ValidateManifest(platform.isSafe, platform.target, manifest.value);
      if !ok {
        return None;
      }
    }
  }

  /** The archive has a valid manifest, unpacks to what that lists, and holds the parser and the model list. */
  ghost predicate Installable(platform: Platform, archive: seq<Entry>, m: Manifest) {
    && Manifests(platform, archive, m) && Unpacks(platform, archive, m)
    && m.parser in FilesOf(archive, |archive|) && m.modelsDir + "/agnes-models.json" in FilesOf(archive, |archive|)
  }

  /** Extracts the archive and checks that what came out is fit to run. */
  method Prepare(platform: Platform, volume: Volume<Content>, archive: seq<Entry>, readable: bool, staging: string)
    returns (manifest: Option<Manifest>)
    requires volume.Valid() && staging !in volume.dirs
    modifies volume
    ensures volume.Valid() && old(volume.trace) <= volume.trace && old(volume.failures) <= volume.failures
    ensures OnlyStaged(volume.trace[|old(volume.trace)|..], old(volume.dirs), staging)
    ensures OnlyAt(volume.dirs, old(volume.dirs), {staging})
    ensures manifest.Some? ==>
              && staging in volume.dirs && volume.dirs == old(volume.dirs)[staging := volume.dirs[staging]]
              && IsNew(platform, volume.dirs[staging], manifest.value)
              && (Honest(archive) ==> Exact(volume.dirs[staging], manifest.value))
    ensures old(volume.step) <= volume.step
    ensures forall m :: (AllWell(volume.fails, old(volume.step)) && readable && Installable(platform, archive, m)) ==>
              manifest == Some(m)
  {
    manifest := ExtractAndVerify(platform, volume, archive, readable, staging);
    if manifest.Some? {
      var files := volume.dirs[staging];
      if manifest.value.parser !in files || manifest.value.modelsDir + "/agnes-models.json" !in files {
        return None;
      }
      var executable := volume.Attempt();
      if !executable {
        return None;
      }
    }
  }

  /**
   * Installs an archive, or fails. Wherever it stops, the old package is whole at the destination or in the backup,
   * or a new one that holds exactly its listed files, with their digests, is at the destination.
   */
  method InstallArchive(platform: Platform, volume: Volume<Content>, isFile: bool, length: nat, archive: seq<Entry>,
                        readable: bool, staging: string, backup: string)
    returns (ok: bool, ghost next: Package<Content>, ghost manifest: Option<Manifest>, ghost from: Option<nat>)
    requires volume.Valid() && staging !in volume.dirs && backup !in volume.dirs
    requires staging != PACKAGE_VERSION && backup != PACKAGE_VERSION && staging != backup
    modifies volume
    ensures volume.Valid() && old(volume.trace) <= volume.trace && old(volume.failures) <= volume.failures
    ensures InstallStates(volume.trace[|old(volume.trace)|..], old(volume.dirs), PACKAGE_VERSION, staging, backup, next)
    ensures manifest.Some? ==>
              && IsNew(platform, next, manifest.value) && (Honest(archive) ==> Exact(next, manifest.value))
              && (Loads(platform, next) <==> platform.written(manifest.value) <= MAX_MANIFEST_BYTES)
              && platform.isSafe(manifest.value.parser) && manifest.value.parser in next
              && platform.isSafe(manifest.value.modelsDir)
              && manifest.value.modelsDir + "/agnes-models.json" in next
    ensures manifest.None? ==> OnlyStaged(volume.trace[|old(volume.trace)|..], old(volume.dirs), staging)
    ensures PACKAGE_VERSION in old(volume.dirs) && volume.failures <= old(volume.failures) + 1 ==>
              PACKAGE_VERSION in volume.dirs
    ensures ok ==> manifest.Some? && volume.dirs == old(volume.dirs)[PACKAGE_VERSION := next]
    // When nothing fails, every installable archive is installed.
    ensures forall m :: (AllWell(volume.fails, old(volume.step)) && platform.target != "unsupported" && isFile
                         && length <= MAX_ARCHIVE_BYTES && readable && Installable(platform, archive, m)) ==>
              ok && manifest == Some(m)
    // Which operations fail decides how it ends once there is something to put in place.
    ensures manifest.Some? <==> from.Some?
    ensures EndsAs(ok, volume.dirs, old(volume.dirs), PACKAGE_VERSION, backup, next, volume.fails, from)
  {
    ok, next, manifest, from := false, map[], None, None;
    ghost var was, before := volume.dirs, |volume.trace|;
    NotSwapped(volume.dirs, was, PACKAGE_VERSION, staging, backup, next, volume.fails);
    var ready := volume.Attempt();
    if platform.target == "unsupported" || !isFile || length > MAX_ARCHIVE_BYTES || !ready {
      return;
    }
    var found := Prepare(platform, volume, archive, readable, staging);
    if found.Some? {
      next, manifest, from := volume.dirs[staging], found, Some(volume.step);
      NewLoadsIff(platform, next, found.value);
    }
    ok := FinishStaged(volume, was, next, found.Some?, PACKAGE_VERSION, staging, backup, before);
  }
}
