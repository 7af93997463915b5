/** Installing, listing, enabling and removing skills (src-tauri/src/skills.rs). */
module SkillStore {
  import opened Sequences
  import opened Disk
  import opened Installation
  import opened SkillIds
  import opened SkillMetadata

  // ----- what a store may show

  predicate IsHidden(name: string) {
    name != "" && name[0] == '.'
  }

  /** A directory that the list shows. */
  predicate IsListed(name: string, package: Package<Content>) {
    !IsHidden(name) && META in package && ENTRY in package
  }

  /** The metadata in a directory names that directory, and the skill's name makes that identifier. */
  predicate IsNamed(digest: string -> string, name: string, package: Package<Content>) {
    META in package && package[META].Record? ==>
      var metadata := package[META].metadata;
      metadata.id == name && IdOf(digest, metadata.name) == name
  }

  /** Every visible directory is named for the skill it holds. */
  predicate StoreOk(digest: string -> string, dirs: Dirs<Content>) {
    forall name <- dirs :: !IsHidden(name) ==> IsNamed(digest, name, dirs[name])
  }

  predicate AllOk(digest: string -> string, states: seq<Dirs<Content>>) {
    forall k :: 0 <= k < |states| ==> StoreOk(digest, states[k])
  }

  // ----- reading

  predicate HasMetadata(dirs: Dirs<Content>, id: string) {
    id in dirs && META in dirs[id] && dirs[id][META].Record?
  }

  function MetadataAt(dirs: Dirs<Content>, id: string): Option<Metadata> {
    if HasMetadata(dirs, id) then Some(dirs[id][META].metadata) else None
  }

  /** What a readable metadata file says, if it decodes. */
  method ReadMetadata(volume: Volume<Content>, name: string, readable: bool) returns (metadata: Option<Metadata>)
    requires name in volume.dirs
    ensures metadata == if readable then MetadataAt(volume.dirs, name) else None
  {
    if readable && META in volume.dirs[name] && volume.dirs[name][META].Record? {
      return Some(volume.dirs[name][META].metadata);
    }
    return None;
  }

  /** The skill with this identifier is there, and its metadata names it. */
  predicate Holds(dirs: Dirs<Content>, id: string) {
    IsValid(id) && HasMetadata(dirs, id) && dirs[id][META].metadata.id == id
  }

  method GetInstalled(volume: Volume<Content>, id: string, readable: bool) returns (metadata: Option<Metadata>)
    ensures metadata.Some? <==> readable && Holds(volume.dirs, id)
    ensures metadata.Some? ==>
              && id in volume.dirs && !IsHidden(id)
              && FileAt(volume.dirs[id], META) == Some(Record(metadata.value))
              && metadata.value.id == id
  {
    var valid := ValidateSkillId(id);
    if !valid || id !in volume.dirs {
      return None;
    }
    metadata := ReadMetadata(volume, id, readable);
    if metadata.Some? && metadata.value.id != id {
      return None;
    }
    assert id[0] in id;
  }

  /** A listed directory has this metadata, and the metadata's identifier is the directory's name. */
  predicate IsShown(dirs: Dirs<Content>, skill: Metadata) {
    skill.id in dirs && IsListed(skill.id, dirs[skill.id]) && dirs[skill.id][META] == Record(skill)
  }

  /** The skills found in these directories, each once. */
  predicate Shows(dirs: Dirs<Content>, names: set<string>, skills: seq<Metadata>) {
    && (forall skill <- skills :: IsShown(dirs, skill) && skill.id in names)
    && (forall name <- names :: name in dirs && IsListed(name, dirs[name]) ==>
          dirs[name][META].Record? && dirs[name][META].metadata in skills)
    && (forall i, j :: 0 <= i < j < |skills| ==> skills[i].id != skills[j].id)
  }

  lemma ShowsOneMore(dirs: Dirs<Content>, names: set<string>, skills: seq<Metadata>, name: string, skill: Metadata)
    requires Shows(dirs, names, skills) && name !in names
    requires IsShown(dirs, skill) && skill.id == name
    ensures Shows(dirs, names + {name}, skills + [skill])
  {
    var more := skills + [skill];
    assert more[|skills|] == skill;
    assert forall each <- skills :: each in more;
  }

  /** All listed skills, each once, or nothing when one cannot be read. */
  method ListInstalled(digest: string -> string, volume: Volume<Content>, readable: string -> bool)
    returns (skills: Option<seq<Metadata>>)
    requires StoreOk(digest, volume.dirs)
    ensures skills.None? <==>
              exists name <- volume.dirs :: IsListed(name, volume.dirs[name])
                                            && !(readable(name) && HasMetadata(volume.dirs, name))
    ensures skills.Some? ==>
              && Shows(volume.dirs, volume.dirs.Keys, skills.value)
              && forall skill <- skills.value :: IdOf(digest, skill.name) == skill.id && !IsHidden(skill.id)
  {
    var found: seq<Metadata>, names := [], volume.dirs.Keys;
    ghost var done := {};
    while names != {}
      invariant names + done == volume.dirs.Keys && names !! done
      invariant Shows(volume.dirs, done, found)
      invariant forall name <- done :: IsListed(name, volume.dirs[name]) ==>
                  readable(name) && HasMetadata(volume.dirs, name)
      decreases names
    {
      var name :| name in names;
      if !(|name| > 0 && name[0] == '.') && META in volume.dirs[name] && ENTRY in volume.dirs[name] {
        var metadata := ReadMetadata(volume, name, readable(name));
        if metadata.None? {
          return None;
        }
        assert IsNamed(digest, name, volume.dirs[name]);
        ShowsOneMore(volume.dirs, done, found, name, metadata.value);
        found := found + [metadata.value];
      }
      names, done := names - {name}, done + {name};
    }
    forall skill <- found
      ensures IdOf(digest, skill.name) == skill.id && !IsHidden(skill.id)
    {
      assert IsNamed(digest, skill.id, volume.dirs[skill.id]);
    }
    return Some(found);
  }

  // ----- changing one skill's metadata

  lemma MetaStateIsOk(digest: string -> string, dirs: Dirs<Content>, was: Dirs<Content>, id: string, metadata: Metadata)
    requires StoreOk(digest, was) && id in was
    requires metadata.id == id && IdOf(digest, metadata.name) == id
    requires MetaState(dirs, was, id, metadata)
    ensures StoreOk(digest, dirs)
  {
    forall name <- dirs | !IsHidden(name)
      ensures IsNamed(digest, name, dirs[name])
    {
      if name == id {
        assert !IsHidden(id) ==> IsNamed(digest, id, was[id]);
      } else {
        OthersStay(dirs, was, {id}, name);
        assert IsNamed(digest, name, was[name]);
      }
    }
  }

  function Switched(dirs: Dirs<Content>, id: string, enabled: bool, now: string): Metadata
    requires HasMetadata(dirs, id)
  {
    dirs[id][META].metadata.(enabled := enabled, updatedAt := now)
  }

  /** Switches a skill on or off; wherever that stops, its files and either metadata are still there. */
  method SetEnabled(digest: string -> string, volume: Volume<Content>, id: string, enabled: bool, now: string,
                    readable: bool) returns (result: Option<Metadata>)
    requires volume.Valid() && StoreOk(digest, volume.dirs)
    modifies volume
    ensures volume.Valid() && old(volume.trace) <= volume.trace && old(volume.failures) <= volume.failures
    ensures StoreOk(digest, volume.dirs) && AllOk(digest, volume.trace[|old(volume.trace)|..])
    ensures HasMetadata(old(volume.dirs), id) ==>
              MetaStates(volume.trace[|old(volume.trace)|..], old(volume.dirs), id,
                         Switched(old(volume.dirs), id, enabled, now))
    ensures !HasMetadata(old(volume.dirs), id) ==> result.None? && volume.trace == old(volume.trace)
    // One failure is repaired: the skill does not disappear from the list.
    ensures HasMetadata(old(volume.dirs), id) && volume.failures <= old(volume.failures) + 1 ==>
              id in volume.dirs && META in volume.dirs[id]
    ensures result.Some? ==>
              && result.value == Switched(old(volume.dirs), id, enabled, now)
              && volume.dirs == old(volume.dirs)[id := WithMetadata(old(volume.dirs)[id], result.value)]
    // Which operations fail decides whether it succeeds, and whether the skill disappears from the list.
    ensures result.Some? <==>
              && readable && Holds(old(volume.dirs), id)
              && Clean(volume.fails, old(volume.step), WriteSteps(old(volume.dirs)[id]))
    ensures HasMetadata(old(volume.dirs), id) && !HasMetadata(volume.dirs, id) <==>
              && readable && Holds(old(volume.dirs), id)
              && LosesMetadata(volume.fails, old(volume.step), old(volume.dirs)[id])
  {
    var found := GetInstalled(volume, id, readable);
    if found.None? {
      return None;
    }
    var metadata := found.value.(enabled := enabled, updatedAt := now);
    assert IsNamed(digest, id, volume.dirs[id]);
    ghost var was, before := volume.dirs, |volume.trace|;
    var ok := WriteMetadata(volume, id, metadata);
    MetaStateIsOk(digest, volume.dirs, was, id, metadata);
    forall k | before <= k < |volume.trace|
      ensures StoreOk(digest, volume.trace[k])
    {
      assert volume.trace[k] == volume.trace[before..][k - before];
      MetaStateIsOk(digest, volume.trace[k], was, id, metadata);
    }
    result := if ok then Some(metadata) else None;
  }

  // ----- removing

  /** Creates the trash directory and moves the skill there. */
  method MoveToTrash(volume: Volume<Content>, id: string, trash: string) returns (ok: bool)
    requires volume.Valid() && id in volume.dirs && id != trash
    modifies volume
    ensures volume.Valid() && old(volume.trace) <= volume.trace && old(volume.failures) <= volume.failures
    ensures ok ==> volume.dirs == Moved(old(volume.dirs), id, trash)
    ensures volume.trace == old(volume.trace) + (if ok then [volume.dirs] else [])
    ensures !ok ==> volume.dirs == old(volume.dirs)
    ensures ok <==> trash !in old(volume.dirs) && Clean(volume.fails, old(volume.step), 2)
  {
    CleanTwo(volume.fails, volume.step);
    ok := volume.Attempt();
    if ok {
      ok := volume.Rename(id, trash);
    }
  }

  /** Moves a skill to the trash, or changes nothing. */
  method Uninstall(digest: string -> string, volume: Volume<Content>, id: string, trash: string, readable: bool)
    returns (ok: bool)
    requires volume.Valid() && StoreOk(digest, volume.dirs) && IsHidden(trash)
    modifies volume
    ensures volume.Valid() && old(volume.trace) <= volume.trace && old(volume.failures) <= volume.failures
    ensures StoreOk(digest, volume.dirs) && AllOk(digest, volume.trace[|old(volume.trace)|..])
    ensures ok ==> id in old(volume.dirs) && volume.dirs == Moved(old(volume.dirs), id, trash)
    ensures !ok ==> volume.dirs == old(volume.dirs)
    ensures ok <==>
              && readable && Holds(old(volume.dirs), id)
              && trash !in old(volume.dirs) && Clean(volume.fails, old(volume.step), 2)
  {
    ok := false;
    var found := GetInstalled(volume, id, readable);
    if found.Some? {
      ok := MoveToTrash(volume, id, trash);
    }
  }

  // ----- installing

  /** What a SKILL.md file says about its skill. */
  datatype Parsed = Parsed(name: string, details: string)

  /** The last component of a path. */
  function FileName(path: string): string {
    if path == "" then ""
    else if '/' in path then FileName(path[1..])
    else path
  }

  /** A source directory without the metadata files in it. */
  function Copied(source: Package<Content>): Package<Content> {
    map path | path in source && FileName(path) != META :: source[path]
  }

  function Installed(source: Package<Content>, metadata: Metadata): Package<Content> {
    WithMetadata(Copied(source), metadata)
  }

  function MetadataFor(id: string, parsed: Parsed, existing: Option<Metadata>, now: string): Metadata {
    Metadata(id, parsed.name, existing.None? || existing.value.enabled,
             if existing.Some? then existing.value.installedAt else now, now, parsed.details)
  }

  // ----- what is installed, file by file

  /** The path is the file, or ends with a slash and the file. */
  predicate EndsIn(path: string, file: string) {
    path == file || (|file| < |path| && path[|path| - |file| - 1] == '/' && path[|path| - |file|..] == file)
  }

  lemma {:induction false} FileNameIs(path: string, file: string)
    requires '/' !in file && file != ""
    ensures FileName(path) == file <==> EndsIn(path, file)
    decreases |path|
  {
    if path != "" && '/' in path {
      FileNameIs(path[1..], file);
      RestEndsIn(path, file);
    }
  }

  lemma RestEndsIn(path: string, file: string)
    requires '/' in path && '/' !in file && file != ""
    ensures EndsIn(path, file) <==> EndsIn(path[1..], file)
  {
    assert path == [path[0]] + path[1..];
    if EndsIn(path, file) && |path| > |file| + 1 {
      assert path[1..][|path| - 1 - |file|..] == path[|path| - |file|..];
    }
    if EndsIn(path[1..], file) && |path| > |file| + 1 {
      assert path[1..][|path| - 1 - |file|..] == path[|path| - |file|..];
    }
  }

  /** Every file of the source but metadata files, as it is, and the new metadata. */
  lemma InstalledFiles(source: Package<Content>, metadata: Metadata, path: string)
    ensures FileAt(Installed(source, metadata), path)
         == if path == ".agnes-skill.json" then Some(Record(metadata))
            else if path == ".agnes-skill.json.tmp" || path == ".agnes-skill.json.backup" then None
            else if EndsIn(path, ".agnes-skill.json") then None
            else FileAt(source, path)
  {
    FileNameIs(path, META);
  }

  /** What the files copied so far make of the staging directory. */
  function CopiedSo(source: Package<Content>, done: set<string>): Package<Content> {
    map path | path in source && path in done && FileName(path) != META :: source[path]
  }

  lemma CopiedOneMore(source: Package<Content>, done: set<string>, path: string)
    requires path in source
    ensures CopiedSo(source, done + {path})
         == if FileName(path) == META then CopiedSo(source, done) else CopiedSo(source, done)[path := source[path]]
  {
  }

  /** The operations of a copy: the directory, and each file that is copied. */
  function CopySteps(source: Package<Content>): nat {
    1 + |Copied(source)|
  }

  lemma MoreToCopy(source: Package<Content>, done: set<string>, rest: set<string>, path: string)
    requires done !! rest && done + rest == source.Keys && path in rest && FileName(path) != META
    ensures |CopiedSo(source, done)| < |Copied(source)|
  {
    assert Copied(source).Keys == CopiedSo(source, done).Keys + CopiedSo(source, rest).Keys;
    assert path in CopiedSo(source, rest).Keys;
  }

  /** The operations so far have succeeded and copied these files. */
  predicate CopyingSo(fails: nat -> bool, first: nat, source: Package<Content>, rest: set<string>,
                      copied: Package<Content>, step: nat) {
    && copied == CopiedSo(source, source.Keys - rest)
    && step == first + 1 + |copied| && Clean(fails, first, 1 + |copied|)
  }

  lemma CopyOneMore(fails: nat -> bool, first: nat, source: Package<Content>, rest: set<string>,
                    copied: Package<Content>, step: nat, path: string)
    requires CopyingSo(fails, first, source, rest, copied, step) && rest <= source.Keys && path in rest
    ensures FileName(path) == META ==> CopyingSo(fails, first, source, rest - {path}, copied, step)
    ensures FileName(path) != META ==>
              if fails(step) then !Clean(fails, first, CopySteps(source))
              else CopyingSo(fails, first, source, rest - {path}, copied[path := source[path]], step + 1)
  {
    var done := source.Keys - rest;
    CopiedOneMore(source, done, path);
    assert source.Keys - (rest - {path}) == done + {path};
    if FileName(path) != META {
      MoreToCopy(source, done, rest, path);
      CleanSoFar(fails, first, 1 + |copied|, CopySteps(source));
    }
  }

  lemma AllCopied(fails: nat -> bool, first: nat, source: Package<Content>, copied: Package<Content>, step: nat)
    requires CopyingSo(fails, first, source, {}, copied, step)
    ensures copied == Copied(source) && Clean(fails, first, CopySteps(source)) && step == first + CopySteps(source)
  {
    assert source.Keys - {} == source.Keys;
    assert CopiedSo(source, source.Keys) == Copied(source);
  }

  /** The staging directory holds what has been copied; the copying has gone well, or else has failed for good. */
  ghost predicate Copying(volume: Volume<Content>, source: Package<Content>, staging: string, was: Dirs<Content>,
                          before: nat, first: nat, rest: set<string>, copied: Package<Content>, ok: bool)
    reads volume
  {
    && volume.Valid() && before <= |volume.trace| && rest <= source.Keys
    && volume.dirs == was[staging := copied] && OnlyStaged(volume.trace[before..], was, staging)
    && if ok then CopyingSo(volume.fails, first, source, rest, copied, volume.step)
       else !Clean(volume.fails, first, CopySteps(source))
  }

  /** Copies some file, unless it is another skill's metadata. */
  method CopyFile(volume: Volume<Content>, source: Package<Content>, staging: string, rest: set<string>,
                  copied: Package<Content>, ghost was: Dirs<Content>, ghost before: nat, ghost first: nat)
    returns (ok: bool, left: set<string>, more: Package<Content>)
    requires rest != {} && Copying(volume, source, staging, was, before, first, rest, copied, true)
    modifies volume
    ensures left < rest && Copying(volume, source, staging, was, before, first, left, more, ok)
    ensures old(volume.trace) <= volume.trace && old(volume.failures) <= volume.failures
  {
    var path :| path in rest;
    CopyOneMore(volume.fails, first, source, rest, copied, volume.step, path);
    ok, left, more := true, rest - {path}, copied;
    if FileName(path) != META {
      ok := volume.Attempt();
      if ok {
        more := copied[path := source[path]];
        StagedIsOnly(volume.dirs, was, staging, copied);
        PutStaged(volume, staging, more, was, before);
      }
    }
  }

  /** Copies the files one by one, and may stop on the way. */
  method CopyFiles(volume: Volume<Content>, source: Package<Content>, staging: string, ghost was: Dirs<Content>,
                   ghost before: nat, ghost first: nat) returns (ok: bool, ghost copied: Package<Content>)
    requires Copying(volume, source, staging, was, before, first, source.Keys, map[], true)
    modifies volume
    ensures exists rest :: Copying(volume, source, staging, was, before, first, rest, copied, ok) && (ok ==> rest == {})
    ensures old(volume.trace) <= volume.trace && old(volume.failures) <= volume.failures
  {
    var rest, files := source.Keys, map[];
    ok := true;
    while rest != {} && ok
      invariant Copying(volume, source, staging, was, before, first, rest, files, ok)
      invariant old(volume.trace) <= volume.trace && old(volume.failures) <= volume.failures
      decreases rest
    {
      ok, rest, files := CopyFile(volume, source, staging, rest, files, was, before, first);
    }
    copied := files;
  }

  /** Creates the staging directory and copies the source there. */
  method CopySkillDirectory(volume: Volume<Content>, source: Package<Content>, staging: string) returns (ok: bool)
    requires volume.Valid() && staging !in volume.dirs
    modifies volume
    ensures volume.Valid() && old(volume.trace) <= volume.trace && old(volume.failures) <= volume.failures
    ensures OnlyStaged(volume.trace[|old(volume.trace)|..], old(volume.dirs), staging)
    ensures OnlyAt(volume.dirs, old(volume.dirs), {staging})
    ensures ok ==> volume.dirs == old(volume.dirs)[staging := Copied(source)]
    ensures ok <==> Clean(volume.fails, old(volume.step), CopySteps(source))
    ensures ok ==> volume.step == old(volume.step) + CopySteps(source)
  {
    ghost var was, before, first := volume.dirs, |volume.trace|, volume.step;
    CleanSoFar(volume.fails, first, 0, CopySteps(source));
    ok := volume.Attempt();
    if ok {
      PutStaged(volume, staging, map[], was, before);
      ghost var copied;
      ok, copied := CopyFiles(volume, source, staging, was, before, first);
      assert OnlyAt(volume.dirs, was, {staging});
      if ok {
        AllCopied(volume.fails, first, source, copied, volume.step);
      }
    }
  }

  lemma MetaStatesAreStaged(states: seq<Dirs<Content>>, was: Dirs<Content>, first: Dirs<Content>, staging: string,
                            metadata: Metadata)
    requires staging in was && MetaStates(states, was, staging, metadata) && OnlyAt(was, first, {staging})
    ensures OnlyStaged(states, first, staging)
  {
    forall k | 0 <= k < |states|
      ensures OnlyAt(states[k], first, {staging})
    {
      assert MetaState(states[k], was, staging, metadata);
    }
  }

  /** The number of the operation that a swap begins with, if the staging that begins with `step` succeeds. */
  function StagedAt(fails: nat -> bool, step: nat, source: Package<Content>): Option<nat> {
    StepAfter(fails, step, CopySteps(source), WriteSteps(Copied(source)))
  }

  /** The number of the operation after two parts of so many operations, if they all succeed. */
  function StepAfter(fails: nat -> bool, step: nat, m: nat, n: nat): Option<nat> {
    if Clean(fails, step, m) && Clean(fails, step + m, n) then Some(step + m + n) else None
  }

  /** Writes the metadata into the staging directory. */
  method WriteStaged(volume: Volume<Content>, source: Package<Content>, metadata: Metadata, staging: string,
                     ghost was: Dirs<Content>, ghost before: nat) returns (ok: bool)
    requires volume.Valid() && before <= |volume.trace| && OnlyStaged(volume.trace[before..], was, staging)
    requires volume.dirs == was[staging := Copied(source)]
    modifies volume
    ensures volume.Valid() && old(volume.trace) <= volume.trace && old(volume.failures) <= volume.failures
    ensures OnlyStaged(volume.trace[before..], was, staging) && OnlyAt(volume.dirs, was, {staging})
    ensures ok ==> volume.dirs == was[staging := Installed(source, metadata)]
    ensures ok <==> Clean(volume.fails, old(volume.step), WriteSteps(Copied(source)))
    ensures ok ==> volume.step == old(volume.step) + WriteSteps(Copied(source))
  {
    ghost var copied, trace := volume.dirs, volume.trace;
    assert OnlyAt(copied, was, {staging});
    ok := WriteMetadata(volume, staging, metadata);
    ghost var states := volume.trace[|trace|..];
    MetaStatesAreStaged(states, copied, was, staging, metadata);
    StagedMore(trace[before..], states, was, staging);
    assert volume.trace[before..] == trace[before..] + states;
  }

  /** Builds the new package in a directory of its own. */
  method Stage(volume: Volume<Content>, source: Package<Content>, metadata: Metadata, staging: string)
    returns (ok: bool)
    requires volume.Valid() && staging !in volume.dirs
    modifies volume
    ensures volume.Valid() && old(volume.trace) <= volume.trace && old(volume.failures) <= volume.failures
    ensures OnlyStaged(volume.trace[|old(volume.trace)|..], old(volume.dirs), staging)
    ensures OnlyAt(volume.dirs, old(volume.dirs), {staging})
    ensures ok ==> volume.dirs == old(volume.dirs)[staging := Installed(source, metadata)]
    ensures (if ok then Some(volume.step) else None) == StagedAt(volume.fails, old(volume.step), source)
  {
    ghost var was, before, first := volume.dirs, |volume.trace|, volume.step;
    ghost var copying, writing := CopySteps(source), WriteSteps(Copied(source));
    ok := CopySkillDirectory(volume, source, staging);
    if !ok {
      return;
    }
    assert volume.step == first + copying;
    ok := WriteStaged(volume, source, metadata, staging, was, before);
    assert (if ok then Some(volume.step) else None) == StepAfter(volume.fails, first, copying, writing);
  }

  /** The states of an installation keep every visible directory named for its skill. */
  lemma InstallStateIsOk(digest: string -> string, dirs: Dirs<Content>, was: Dirs<Content>, id: string, staging: string,
                         backup: string, next: Package<Content>)
    requires StoreOk(digest, was) && InstallState(dirs, was, id, staging, backup, next)
    requires IsHidden(staging) && IsHidden(backup) && IsNamed(digest, id, next)
    ensures StoreOk(digest, dirs)
  {
    forall name <- dirs | !IsHidden(name)
      ensures IsNamed(digest, name, dirs[name])
    {
      if name != id {
        OthersStay(dirs, was, {staging, id, backup}, name);
        assert IsNamed(digest, name, was[name]);
      }
    }
  }

  /** Stages the package, swaps it in, and cleans up, whatever came of it. */
  method InstallPackage(volume: Volume<Content>, source: Package<Content>, metadata: Metadata, id: string,
                        staging: string, backup: string) returns (ok: bool)
    requires volume.Valid() && staging !in volume.dirs && backup !in volume.dirs
    requires staging != id && staging != backup && id != backup
    modifies volume
    ensures volume.Valid() && old(volume.trace) <= volume.trace && old(volume.failures) <= volume.failures
    ensures InstallStates(volume.trace[|old(volume.trace)|..], old(volume.dirs), id, staging, backup,
                          Installed(source, metadata))
    ensures InstallState(volume.dirs, old(volume.dirs), id, staging, backup, Installed(source, metadata))
    ensures id in old(volume.dirs) && volume.failures <= old(volume.failures) + 1 ==> id in volume.dirs
    ensures ok ==> volume.dirs == old(volume.dirs)[id := Installed(source, metadata)]
    ensures EndsAs(ok, volume.dirs, old(volume.dirs), id, backup, Installed(source, metadata), volume.fails,
                   StagedAt(volume.fails, old(volume.step), source))
  {
    ghost var was, before, next := volume.dirs, |volume.trace|, Installed(source, metadata);
    ok := Stage(volume, source, metadata, staging);
    ok := FinishStaged(volume, was, next, ok, id, staging, backup, before);
  }

  /** The metadata that an installation writes: a skill that was there keeps its switch and its first date. */
  function NextMetadata(dirs: Dirs<Content>, id: string, parsed: Parsed, now: string): Metadata {
    MetadataFor(id, parsed, MetadataAt(dirs, id), now)
  }

  /** An installation may go ahead: nothing is there, or the same skill is. */
  predicate MayInstall(dirs: Dirs<Content>, id: string, name: string) {
    id in dirs ==> HasMetadata(dirs, id) && dirs[id][META].metadata.name == name
  }

  /**
   * Installs a skill, or fails. Wherever it stops, the skill's old or new package is there whole, no other skill is
   * touched, and every visible directory is named for its skill; a skill of another name is never replaced.
   */
  method InstallOne(digest: string -> string, volume: Volume<Content>, parsed: Parsed, source: Package<Content>,
                    now: string, staging: string, backup: string, readable: bool) returns (result: Option<Metadata>)
    requires volume.Valid() && StoreOk(digest, volume.dirs) && IsDigest(digest)
    requires IsHidden(staging) && IsHidden(backup) && staging != backup
    requires staging !in volume.dirs && backup !in volume.dirs
    modifies volume
    ensures volume.Valid() && old(volume.trace) <= volume.trace && old(volume.failures) <= volume.failures
    ensures StoreOk(digest, volume.dirs) && AllOk(digest, volume.trace[|old(volume.trace)|..])
    ensures var id := IdOf(digest, parsed.name);
            InstallStates(volume.trace[|old(volume.trace)|..], old(volume.dirs), id, staging, backup,
                          Installed(source, NextMetadata(old(volume.dirs), id, parsed, now)))
    // One failure is repaired: a skill that was there is still there, as the old or the new package.
    ensures IdOf(digest, parsed.name) in old(volume.dirs) && volume.failures <= old(volume.failures) + 1 ==>
              IdOf(digest, parsed.name) in volume.dirs
    ensures !MayInstall(old(volume.dirs), IdOf(digest, parsed.name), parsed.name) ==>
              result.None? && volume.trace == old(volume.trace)
    ensures result.Some? ==>
              && result.value == NextMetadata(old(volume.dirs), IdOf(digest, parsed.name), parsed, now)
              && volume.dirs == old(volume.dirs)[result.value.id := Installed(source, result.value)]
    // A skill that was there keeps its switch and its first date; a new one is switched on.
    ensures result.Some? ==>
              var id, metadata := IdOf(digest, parsed.name), result.value;
              && metadata.id == id && metadata.name == parsed.name && metadata.details == parsed.details
              && metadata.updatedAt == now
              && (id !in old(volume.dirs) ==> metadata.enabled && metadata.installedAt == now)
              && (id in old(volume.dirs) ==>
                    && HasMetadata(old(volume.dirs), id)
                    && metadata.enabled == old(volume.dirs)[id][META].metadata.enabled
                    && metadata.installedAt == old(volume.dirs)[id][META].metadata.installedAt)
    // Which operations fail decides how it ends.
    ensures var id := IdOf(digest, parsed.name);
            EndsAs(result.Some?, volume.dirs, old(volume.dirs), id, backup,
                   Installed(source, NextMetadata(old(volume.dirs), id, parsed, now)), volume.fails,
                   if MayInstall(old(volume.dirs), id, parsed.name) && (id in old(volume.dirs) ==> readable)
                   then StagedAt(volume.fails, old(volume.step), source) else None)
  {
    var id := SkillId(digest, parsed.name);
    IdIsValid(digest, parsed.name);
    var valid := ValidateSkillId(id);
    if !valid {
      return None;
    }
    var existing: Option<Metadata> := None;
    if id in volume.dirs {
      existing := ReadMetadata(volume, id, readable);
      if existing.None? || existing.value.name != parsed.name {
        return None;
      }
    }
    result := InstallNamed(digest, volume, MetadataFor(id, parsed, existing, now), source, staging, backup);
  }

  method InstallNamed(digest: string -> string, volume: Volume<Content>, metadata: Metadata, source: Package<Content>,
                      staging: string, backup: string) returns (result: Option<Metadata>)
    requires volume.Valid() && StoreOk(digest, volume.dirs) && !IsHidden(metadata.id)
    requires IdOf(digest, metadata.name) == metadata.id
    requires IsHidden(staging) && IsHidden(backup) && staging != backup
    requires staging !in volume.dirs && backup !in volume.dirs
    modifies volume
    ensures volume.Valid() && old(volume.trace) <= volume.trace && old(volume.failures) <= volume.failures
    ensures StoreOk(digest, volume.dirs) && AllOk(digest, volume.trace[|old(volume.trace)|..])
    ensures InstallStates(volume.trace[|old(volume.trace)|..], old(volume.dirs), metadata.id, staging, backup,
                          Installed(source, metadata))
    ensures metadata.id in old(volume.dirs) && volume.failures <= old(volume.failures) + 1 ==> metadata.id in volume.dirs
    ensures result.Some? ==>
              result.value == metadata && volume.dirs == old(volume.dirs)[metadata.id := Installed(source, metadata)]
    ensures EndsAs(result.Some?, volume.dirs, old(volume.dirs), metadata.id, backup, Installed(source, metadata),
                   volume.fails, StagedAt(volume.fails, old(volume.step), source))
  {
    ghost var was, before, next := volume.dirs, |volume.trace|, Installed(source, metadata);
    var ok := InstallPackage(volume, source, metadata, metadata.id, staging, backup);
    InstallStateIsOk(digest, volume.dirs, was, metadata.id, staging, backup, next);
    forall k | before <= k < |volume.trace|
      ensures StoreOk(digest, volume.trace[k])
    {
      assert volume.trace[k] == volume.trace[before..][k - before];
      InstallStateIsOk(digest, volume.trace[k], was, metadata.id, staging, backup, next);
    }
    result := if ok then Some(metadata) else None;
  }
}
