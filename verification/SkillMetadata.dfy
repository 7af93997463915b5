/** Writing a skill's metadata file (src-tauri/src/skills.rs, write_metadata and read_metadata). */
module SkillMetadata {
  import opened Sequences
  import opened Disk

  datatype Metadata = Metadata(
    id: string, name: string, enabled: bool, installedAt: string, updatedAt: string, details: string)

  /** A file: text, or JSON that decodes to metadata. */
  datatype Content = Raw(text: string) | Record(metadata: Metadata)

  const ENTRY := "SKILL.md"
  const META := ".agnes-skill.json"
  const TEMPORARY := ".agnes-skill.json.tmp"
  const OLD := ".agnes-skill.json.backup"

  function Payload(package: Package<Content>): Package<Content> {
    package - {META, TEMPORARY, OLD}
  }

  function WithMetadata(package: Package<Content>, metadata: Metadata): Package<Content> {
    Payload(package)[META := Record(metadata)]
  }

  function FileAt(package: Package<Content>, path: string): Option<Content> {
    if path in package then Some(package[path]) else None
  }

  /** The metadata file is the old or the new one, or else it is absent and the old one is in the backup file. */
  predicate MetaKept(package: Package<Content>, was: Package<Content>, metadata: Metadata) {
    && Payload(package) == Payload(was)
    && (META in package ==> FileAt(package, META) in {FileAt(was, META), Some(Record(metadata))})
    && (META !in package && META in was ==> FileAt(package, OLD) == FileAt(was, META))
  }

  /** A disk on which at most the metadata files of `name` have changed, and the metadata is not lost. */
  predicate MetaState(dirs: Dirs<Content>, was: Dirs<Content>, name: string, metadata: Metadata)
    requires name in was
  {
    name in dirs && OnlyAt(dirs, was, {name}) && MetaKept(dirs[name], was[name], metadata)
  }

  predicate MetaStates(states: seq<Dirs<Content>>, was: Dirs<Content>, name: string, metadata: Metadata)
    requires name in was
  {
    forall k :: 0 <= k < |states| ==> MetaState(states[k], was, name, metadata)
  }

  /** The three files that belong to the metadata; the rest of the package is as it was. */
  predicate Slots(package: Package<Content>, was: Package<Content>, meta: Option<Content>, temporary: Option<Content>,
                  kept: Option<Content>) {
    && Payload(package) == Payload(was)
    && FileAt(package, META) == meta && FileAt(package, TEMPORARY) == temporary && FileAt(package, OLD) == kept
  }

  function Without(package: Package<Content>, path: string): Package<Content> {
    package - {path}
  }

  function FileMoved(package: Package<Content>, source: string, target: string): Package<Content>
    requires source in package
  {
    (package - {source})[target := package[source]]
  }

  lemma TemporaryWritten(package: Package<Content>, was: Package<Content>, content: Content)
    requires Slots(package, was, FileAt(was, META), FileAt(package, TEMPORARY), FileAt(was, OLD))
    ensures Slots(package[TEMPORARY := content], was, FileAt(was, META), Some(content), FileAt(was, OLD))
  {
    assert Payload(package[TEMPORARY := content]) == Payload(package);
  }

  lemma OldRemoved(package: Package<Content>, was: Package<Content>, meta: Option<Content>, temporary: Option<Content>)
    requires Slots(package, was, meta, temporary, FileAt(package, OLD))
    ensures Slots(Without(package, OLD), was, meta, temporary, None)
  {
    assert Payload(Without(package, OLD)) == Payload(package);
  }

  lemma MetaMovedAside(package: Package<Content>, was: Package<Content>, temporary: Option<Content>)
    requires META in package && Slots(package, was, FileAt(package, META), temporary, FileAt(package, OLD))
    ensures Slots(FileMoved(package, META, OLD), was, None, temporary, FileAt(package, META))
  {
    assert Payload(FileMoved(package, META, OLD)) == Payload(package);
  }

  lemma MetaRestored(package: Package<Content>, was: Package<Content>, temporary: Option<Content>)
    requires OLD in package && Slots(package, was, FileAt(package, META), temporary, FileAt(package, OLD))
    ensures Slots(FileMoved(package, OLD, META), was, FileAt(package, OLD), temporary, None)
  {
    assert Payload(FileMoved(package, OLD, META)) == Payload(package);
  }

  lemma TemporaryMovedIn(package: Package<Content>, was: Package<Content>, kept: Option<Content>)
    requires TEMPORARY in package && Slots(package, was, FileAt(package, META), FileAt(package, TEMPORARY), kept)
    ensures Slots(FileMoved(package, TEMPORARY, META), was, FileAt(package, TEMPORARY), None, kept)
  {
    assert Payload(FileMoved(package, TEMPORARY, META)) == Payload(package);
  }

  lemma MetadataWritten(package: Package<Content>, was: Package<Content>, metadata: Metadata)
    requires Slots(package, was, Some(Record(metadata)), None, None)
    ensures package == WithMetadata(was, metadata)
  {
    forall path | path !in {META, TEMPORARY, OLD}
      ensures FileAt(package, path) == FileAt(WithMetadata(was, metadata), path)
    {
      assert FileAt(package, path) == FileAt(Payload(package), path);
      assert FileAt(was, path) == FileAt(Payload(was), path);
    }
    var result := WithMetadata(was, metadata);
    forall path: string
      ensures FileAt(package, path) == FileAt(result, path)
    {
    }
    SameFiles(package, result);
  }

  lemma SameFiles(a: Package<Content>, b: Package<Content>)
    requires forall path: string :: FileAt(a, path) == FileAt(b, path)
    ensures a == b
  {
    forall path: string
      ensures path in a <==> path in b
      ensures path in a ==> a[path] == b[path]
    {
      assert FileAt(a, path) == FileAt(b, path);
    }
  }

  /** The operations that move the present metadata file and its older backup out of the way. */
  function AsideSteps(package: Package<Content>): nat {
    (if OLD in package then 1 else 0) + (if META in package then 1 else 0)
  }

  /** The operations of a whole write. */
  function WriteSteps(package: Package<Content>): nat {
    2 + AsideSteps(package) + (if META in package then 2 else 1)
  }

  /** The present metadata file is moved aside, and then neither the new one can be moved in nor that one back. */
  predicate LosesMetadata(fails: nat -> bool, step: nat, package: Package<Content>) {
    var n := 2 + AsideSteps(package);
    META in package && Clean(fails, step, n) && fails(step + n) && fails(step + n + 1)
  }

  /** Changes one directory, once. */
  method Change(volume: Volume<Content>, name: string, package: Package<Content>, ghost was: Dirs<Content>,
                ghost metadata: Metadata, ghost before: nat)
    requires volume.Valid() && name in was && before <= |volume.trace|
    requires MetaState(volume.dirs, was, name, metadata) && MetaStates(volume.trace[before..], was, name, metadata)
    requires MetaKept(package, was[name], metadata)
    modifies volume
    ensures volume.Valid() && old(volume.trace) <= volume.trace && old(volume.failures) <= volume.failures
    ensures volume.dirs == old(volume.dirs)[name := package] && volume.failures == old(volume.failures)
    ensures volume.step == old(volume.step)
    ensures MetaState(volume.dirs, was, name, metadata) && MetaStates(volume.trace[before..], was, name, metadata)
  {
    volume.Put(name, package);
    assert volume.dirs - {name} == old(volume.dirs) - {name};
    assert volume.trace[before..] == old(volume.trace)[before..] + [volume.dirs];
  }

  lemma CleanTwo(fails: nat -> bool, step: nat)
    ensures Clean(fails, step, 0)
    ensures Clean(fails, step, 1) <==> !fails(step)
    ensures Clean(fails, step, 2) <==> !fails(step) && !fails(step + 1)
  {
  }

  /** Creates the temporary file and then fills it. */
  method WriteTemporary(volume: Volume<Content>, name: string, metadata: Metadata, ghost was: Dirs<Content>,
                        ghost before: nat) returns (ok: bool)
    requires volume.Valid() && name in was && before <= |volume.trace| && volume.dirs == was
    requires MetaStates(volume.trace[before..], was, name, metadata)
    modifies volume
    ensures volume.Valid() && old(volume.trace) <= volume.trace && old(volume.failures) <= volume.failures
    ensures MetaState(volume.dirs, was, name, metadata) && MetaStates(volume.trace[before..], was, name, metadata)
    ensures META in was[name] ==> META in volume.dirs[name]
    ensures ok ==> Slots(volume.dirs[name], was[name], FileAt(was[name], META), Some(Record(metadata)),
                         FileAt(was[name], OLD))
    ensures ok <==> Clean(volume.fails, old(volume.step), 2)
    ensures ok ==> volume.step == old(volume.step) + 2
  {
    CleanTwo(volume.fails, volume.step);
    ok := volume.Attempt();
    if ok {
      var package := volume.dirs[name];
      TemporaryWritten(package, was[name], Raw(""));
      package := package[TEMPORARY := Raw("")];
      Change(volume, name, package, was, metadata, before);
      ok := volume.Attempt();
      if ok {
        TemporaryWritten(package, was[name], Record(metadata));
        Change(volume, name, package[TEMPORARY := Record(metadata)], was, metadata, before);
      }
    }
  }

  /** Removes an older backup file and moves the present metadata file there. */
  method MoveOldAside(volume: Volume<Content>, name: string, ghost metadata: Metadata, ghost was: Dirs<Content>,
                      ghost before: nat) returns (ok: bool)
    requires volume.Valid() && name in was && before <= |volume.trace|
    requires MetaState(volume.dirs, was, name, metadata) && MetaStates(volume.trace[before..], was, name, metadata)
    requires Slots(volume.dirs[name], was[name], FileAt(was[name], META), Some(Record(metadata)), FileAt(was[name], OLD))
    modifies volume
    ensures volume.Valid() && old(volume.trace) <= volume.trace && old(volume.failures) <= volume.failures
    ensures MetaState(volume.dirs, was, name, metadata) && MetaStates(volume.trace[before..], was, name, metadata)
    ensures !ok && META in was[name] ==> META in volume.dirs[name]
    ensures ok ==> Slots(volume.dirs[name], was[name], None, Some(Record(metadata)), FileAt(was[name], META))
    ensures ok <==> Clean(volume.fails, old(volume.step), AsideSteps(was[name]))
    ensures ok ==> volume.step == old(volume.step) + AsideSteps(was[name])
  {
    CleanTwo(volume.fails, volume.step);
    ok := true;
    var package := volume.dirs[name];
    if OLD in package {
      ok := volume.Attempt();
      if !ok { return; }
      OldRemoved(package, was[name], FileAt(package, META), FileAt(package, TEMPORARY));
      package := Without(package, OLD);
      Change(volume, name, package, was, metadata, before);
    }
    if META in package {
      ok := volume.Attempt();
      if !ok { return; }
      MetaMovedAside(package, was[name], FileAt(package, TEMPORARY));
      Change(volume, name, FileMoved(package, META, OLD), was, metadata, before);
    }
  }

  /** Moves the temporary file in, or tries to restore the old file; then removes the backup file. */
  method MoveNewIn(volume: Volume<Content>, name: string, ghost metadata: Metadata, ghost was: Dirs<Content>,
                   ghost before: nat) returns (ok: bool)
    requires volume.Valid() && name in was && before <= |volume.trace|
    requires MetaState(volume.dirs, was, name, metadata) && MetaStates(volume.trace[before..], was, name, metadata)
    requires Slots(volume.dirs[name], was[name], None, Some(Record(metadata)), FileAt(was[name], META))
    modifies volume
    ensures volume.Valid() && old(volume.trace) <= volume.trace && old(volume.failures) <= volume.failures
    ensures MetaState(volume.dirs, was, name, metadata) && MetaStates(volume.trace[before..], was, name, metadata)
    ensures META in was[name] && volume.failures <= old(volume.failures) + 1 ==> META in volume.dirs[name]
    ensures ok ==> Slots(volume.dirs[name], was[name], Some(Record(metadata)), None, None)
    ensures ok <==> Clean(volume.fails, old(volume.step), if META in was[name] then 2 else 1)
    ensures ok ==> volume.step == old(volume.step) + (if META in was[name] then 2 else 1)
    ensures META in was[name] ==>
              (META !in volume.dirs[name] <==> volume.fails(old(volume.step)) && volume.fails(old(volume.step) + 1))
  {
    CleanTwo(volume.fails, volume.step);
    ok := volume.Attempt();
    var package := volume.dirs[name];
    if !ok {
      var restored := false;
      if OLD in package {
        restored := volume.Attempt();
      }
      if restored {
        MetaRestored(package, was[name], FileAt(package, TEMPORARY));
        Change(volume, name, FileMoved(package, OLD, META), was, metadata, before);
      }
      return;
    }
    TemporaryMovedIn(package, was[name], FileAt(package, OLD));
    package := FileMoved(package, TEMPORARY, META);
    Change(volume, name, package, was, metadata, before);
    if OLD in package {
      ok := volume.Attempt();
      if !ok { return; }
      OldRemoved(package, was[name], FileAt(package, META), FileAt(package, TEMPORARY));
      Change(volume, name, Without(package, OLD), was, metadata, before);
    }
  }

  /** The old metadata is never lost, wherever this stops; when it succeeds, only the new metadata is left. */
  method WriteMetadata(volume: Volume<Content>, name: string, metadata: Metadata) returns (ok: bool)
    requires volume.Valid() && name in volume.dirs
    modifies volume
    ensures volume.Valid() && old(volume.trace) <= volume.trace && old(volume.failures) <= volume.failures
    ensures MetaState(volume.dirs, old(volume.dirs), name, metadata)
    ensures MetaStates(volume.trace[|old(volume.trace)|..], old(volume.dirs), name, metadata)
    // One failure is repaired: the metadata file is missing only when the restoring move fails too.
    ensures META in old(volume.dirs)[name] && volume.failures <= old(volume.failures) + 1 ==> META in volume.dirs[name]
    ensures ok ==> volume.dirs == old(volume.dirs)[name := WithMetadata(old(volume.dirs)[name], metadata)]
    // Which operations fail decides whether it succeeds, and whether the metadata file is missing.
    ensures ok <==> Clean(volume.fails, old(volume.step), WriteSteps(old(volume.dirs)[name]))
    ensures ok ==> volume.step == old(volume.step) + WriteSteps(old(volume.dirs)[name])
    ensures META in old(volume.dirs)[name] && META !in volume.dirs[name] <==>
              LosesMetadata(volume.fails, old(volume.step), old(volume.dirs)[name])
  {
    ghost var was, before := volume.dirs, |volume.trace|;
    ghost var aside := AsideSteps(was[name]);
    CleanConcat(volume.fails, volume.step, 2, aside);
    CleanConcat(volume.fails, volume.step, 2 + aside, if META in was[name] then 2 else 1);
    ok := WriteTemporary(volume, name, metadata, was, before);
    if ok {
      ok := MoveOldAside(volume, name, metadata, was, before);
    }
    if ok {
      ok := MoveNewIn(volume, name, metadata, was, before);
    }
    if ok {
      MetadataWritten(volume.dirs[name], was[name], metadata);
      ChangedDirs(volume.dirs, was, name);
    }
  }

  lemma ChangedDirs(dirs: Dirs<Content>, was: Dirs<Content>, name: string)
    requires name in dirs && OnlyAt(dirs, was, {name})
    ensures dirs == was[name := dirs[name]]
  {
    assert dirs == (dirs - {name})[name := dirs[name]];
    assert was[name := dirs[name]] == (was - {name})[name := dirs[name]];
  }
}
