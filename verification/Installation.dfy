/**
 * What both installers do with a staged package, seen over every state of the disk (src-tauri/src/skills.rs
 * install_one, src-tauri/src/pdf_models.rs install_archive).
 */
module Installation {
  import opened Sequences
  import opened Disk

  predicate OnlyStaged<C(==)>(states: seq<Dirs<C>>, was: Dirs<C>, staging: string) {
    forall k :: 0 <= k < |states| ==> OnlyAt(states[k], was, {staging})
  }

  lemma StagedMore<C>(states: seq<Dirs<C>>, more: seq<Dirs<C>>, was: Dirs<C>, staging: string)
    requires OnlyStaged(states, was, staging) && OnlyStaged(more, was, staging)
    ensures OnlyStaged(states + more, was, staging)
  {
  }

  /** Changes the staging directory, once. */
  method PutStaged<C(==)>(volume: Volume<C>, staging: string, files: Package<C>, ghost was: Dirs<C>,
                   ghost before: nat)
    requires volume.Valid() && before <= |volume.trace|
    requires OnlyAt(volume.dirs, was, {staging}) && OnlyStaged(volume.trace[before..], was, staging)
    modifies volume
    ensures volume.Valid() && old(volume.trace) <= volume.trace && old(volume.failures) <= volume.failures
    ensures volume.dirs == was[staging := files] && OnlyStaged(volume.trace[before..], was, staging)
    ensures volume.step == old(volume.step)
  {
    volume.Put(staging, files);
    StagedPut(volume.dirs, old(volume.dirs), was, staging, files);
    assert volume.trace[before..] == old(volume.trace)[before..] + [volume.dirs];
  }

  lemma StagedIsOnly<C>(dirs: Dirs<C>, was: Dirs<C>, staging: string, files: Package<C>)
    requires dirs == was[staging := files]
    ensures OnlyAt(dirs, was, {staging})
  {
  }

  lemma StagedPut<C>(dirs: Dirs<C>, before: Dirs<C>, was: Dirs<C>, staging: string, files: Package<C>)
    requires OnlyAt(before, was, {staging}) && dirs == before[staging := files]
    ensures dirs == was[staging := files] && OnlyAt(dirs, was, {staging})
  {
    assert dirs == (before - {staging})[staging := files];
    assert was[staging := files] == (was - {staging})[staging := files];
    assert dirs - {staging} == before - {staging};
  }

  lemma StagedTwice<C>(states: seq<Dirs<C>>, before: Dirs<C>, was: Dirs<C>, staging: string)
    requires OnlyStaged(states, before, staging) && OnlyAt(before, was, {staging})
    ensures OnlyStaged(states, was, staging)
  {
  }

  /** A disk that an installation passes through: the skill's package is not lost, and no other skill is touched. */
  predicate InstallState<C(==)>(dirs: Dirs<C>, was: Dirs<C>, id: string, staging: string, backup: string,
                         next: Package<C>) {
    OnlyAt(dirs, was, {staging, id, backup}) && Kept(dirs, id, backup, PackageAt(was, id), next)
  }

  predicate InstallStates<C(==)>(states: seq<Dirs<C>>, was: Dirs<C>, id: string, staging: string, backup: string,
                          next: Package<C>) {
    forall k :: 0 <= k < |states| ==> InstallState(states[k], was, id, staging, backup, next)
  }

  /** Changing only the staging directory leads from one such disk to another. */
  lemma StagingIsNeutral<C>(dirs: Dirs<C>, before: Dirs<C>, was: Dirs<C>, id: string, staging: string,
                         backup: string, next: Package<C>)
    requires OnlyAt(dirs, before, {staging}) && staging != id && staging != backup
    requires InstallState(before, was, id, staging, backup, next)
    ensures InstallState(dirs, was, id, staging, backup, next)
  {
    OthersStay(dirs, before, {staging}, id);
    OthersStay(dirs, before, {staging}, backup);
    OnlyAtMore(dirs, before, was, {staging}, {staging, id, backup});
  }

  lemma StagedIsNeutral<C>(states: seq<Dirs<C>>, before: Dirs<C>, was: Dirs<C>, id: string,
                        staging: string, backup: string, next: Package<C>)
    requires OnlyStaged(states, before, staging) && staging != id && staging != backup
    requires InstallState(before, was, id, staging, backup, next)
    ensures InstallStates(states, was, id, staging, backup, next)
  {
    forall k | 0 <= k < |states|
      ensures InstallState(states[k], was, id, staging, backup, next)
    {
      StagingIsNeutral(states[k], before, was, id, staging, backup, next);
    }
  }

  lemma SwapStateInstalls<C>(dirs: Dirs<C>, staged: Dirs<C>, was: Dirs<C>, id: string, staging: string,
                          backup: string, next: Package<C>)
    requires staging in staged && staged[staging] == next && OnlyAt(staged, was, {staging})
    requires staging != id && staging != backup && id != backup
    requires SwapState(dirs, staged, staging, id, backup)
    ensures InstallState(dirs, was, id, staging, backup, next)
  {
    SwapNeverLoses(dirs, staged, staging, id, backup);
    OthersStay(staged, was, {staging}, id);
    OnlyAtMore(staged, was, was, {staging}, {staging, id, backup});
  }

  lemma StatesConcat<C>(a: seq<Dirs<C>>, b: seq<Dirs<C>>, was: Dirs<C>, id: string, staging: string,
                     backup: string, next: Package<C>)
    requires InstallStates(a, was, id, staging, backup, next) && InstallStates(b, was, id, staging, backup, next)
    ensures InstallStates(a + b, was, id, staging, backup, next)
  {
  }

  /**
   * How an installation has ended whose swap began with operation `from`, if it came so far. It succeeded, or left the
   * new package beside what is left of the old one, or left nothing at the destination; otherwise the old package is
   * where it was. Which of these it is depends only on the operations that fail.
   */
  predicate EndsAs<C(==)>(ok: bool, dirs: Dirs<C>, was: Dirs<C>, id: string, backup: string, next: Package<C>,
                          fails: nat -> bool, from: Option<nat>) {
    var previous := PackageAt(was, id);
    && (ok <==> from.Some? && Replaces(fails, from.value, previous))
    && (id in dirs && backup in dirs <==> from.Some? && LeavesBoth(fails, from.value, previous))
    && (id in was && id !in dirs <==> from.Some? && LeavesEmpty(fails, from.value, previous))
    && (ok || (id in dirs && backup in dirs) ==> PackageAt(dirs, id) == Some(next))
    && (id in was && id !in dirs ==> PackageAt(dirs, backup) == previous)
    && (!ok && backup !in dirs ==> PackageAt(dirs, id) == previous)
  }

  lemma NotSwapped<C>(dirs: Dirs<C>, was: Dirs<C>, id: string, staging: string, backup: string, next: Package<C>,
                      fails: nat -> bool)
    requires OnlyAt(dirs, was, {staging}) && staging != id && staging != backup && backup !in was
    ensures EndsAs(false, dirs, was, id, backup, next, fails, None)
  {
    OthersStay(dirs, was, {staging}, id);
    OthersStay(dirs, was, {staging}, backup);
  }

  /** What becomes of the staging directory does not matter. */
  lemma EndsSoToo<C>(ok: bool, dirs: Dirs<C>, before: Dirs<C>, was: Dirs<C>, id: string, staging: string,
                     backup: string, next: Package<C>, fails: nat -> bool, from: Option<nat>)
    requires OnlyAt(dirs, before, {staging}) && staging != id && staging != backup
    requires EndsAs(ok, before, was, id, backup, next, fails, from)
    ensures EndsAs(ok, dirs, was, id, backup, next, fails, from)
  {
    OthersStay(dirs, before, {staging}, id);
    OthersStay(dirs, before, {staging}, backup);
  }

  /** Puts the staged package in place, seen from the disk before the staging. */
  method SwapIn<C(==)>(volume: Volume<C>, ghost was: Dirs<C>, ghost next: Package<C>, id: string,
                staging: string, backup: string) returns (ok: bool)
    requires volume.Valid() && volume.dirs == was[staging := next] && backup !in was && staging !in was
    requires staging != id && staging != backup && id != backup
    modifies volume
    ensures volume.Valid() && old(volume.trace) <= volume.trace && old(volume.failures) <= volume.failures
    ensures InstallStates(volume.trace[|old(volume.trace)|..], was, id, staging, backup, next)
    ensures InstallState(volume.dirs, was, id, staging, backup, next)
    ensures id in was && volume.failures <= old(volume.failures) + 1 ==> id in volume.dirs
    ensures ok ==> volume.dirs == was[id := next]
    ensures EndsAs(ok, volume.dirs, was, id, backup, next, volume.fails, Some(old(volume.step)))
  {
    ghost var staged, before := volume.dirs, |volume.trace|;
    assert OnlyAt(staged, was, {staging});
    ok := volume.Swap(staging, id, backup);
    forall k | before <= k < |volume.trace|
      ensures InstallState(volume.trace[k], was, id, staging, backup, next)
    {
      SwapStateInstalls(volume.trace[k], staged, was, id, staging, backup, next);
    }
    SwapStateInstalls(volume.dirs, staged, was, id, staging, backup, next);
    if ok {
      assert staged - {staging} == was;
    } else if staging !in volume.dirs {
      OthersStay(volume.dirs, Moved(staged, staging, id), {backup}, id);
    }
  }

  /** Removes what is left of the staging directory; a failure to do so is ignored. */
  method CleanUp<C(==)>(volume: Volume<C>, ghost was: Dirs<C>, ghost next: Package<C>, id: string,
                 staging: string, backup: string)
    requires volume.Valid() && InstallState(volume.dirs, was, id, staging, backup, next)
    requires staging != id && staging != backup
    modifies volume
    ensures volume.Valid() && old(volume.trace) <= volume.trace && old(volume.failures) <= volume.failures
    ensures InstallStates(volume.trace[|old(volume.trace)|..], was, id, staging, backup, next)
    ensures InstallState(volume.dirs, was, id, staging, backup, next)
    ensures OnlyStaged(volume.trace[|old(volume.trace)|..], old(volume.dirs), staging)
    ensures OnlyAt(volume.dirs, old(volume.dirs), {staging})
    ensures staging !in old(volume.dirs) ==> volume.dirs == old(volume.dirs)
  {
    ghost var found, before := volume.dirs, |volume.trace|;
    if staging in volume.dirs {
      var removed := volume.RemoveDirAll(staging);
      StagedIsNeutral(volume.trace[before..], found, was, id, staging, backup, next);
      StagingIsNeutral(volume.dirs, found, was, id, staging, backup, next);
    }
  }

  /** The staged package is put in place, if staging succeeded; what is left of the staging directory is removed. */
  method Finish<C(==)>(volume: Volume<C>, ghost was: Dirs<C>, ghost next: Package<C>, staged: bool, id: string,
                       staging: string, backup: string) returns (ok: bool)
    requires volume.Valid() && OnlyAt(volume.dirs, was, {staging}) && backup !in was && staging !in was
    requires staging != id && staging != backup && id != backup
    requires staged ==> volume.dirs == was[staging := next]
    modifies volume
    ensures volume.Valid() && old(volume.trace) <= volume.trace && old(volume.failures) <= volume.failures
    ensures InstallStates(volume.trace[|old(volume.trace)|..], was, id, staging, backup, next)
    ensures InstallState(volume.dirs, was, id, staging, backup, next)
    ensures !staged ==> OnlyStaged(volume.trace[|old(volume.trace)|..], was, staging)
    // One failure is repaired: a package that was there is still there, as the old or the new one.
    ensures id in was && volume.failures <= old(volume.failures) + 1 ==> id in volume.dirs
    ensures ok ==> staged && volume.dirs == was[id := next]
    ensures EndsAs(ok, volume.dirs, was, id, backup, next, volume.fails,
                   if staged then Some(old(volume.step)) else None)
  {
    ghost var first, from := volume.trace, if staged then Some(volume.step) else None;
    ok := false;
    StagingIsNeutral(volume.dirs, was, was, id, staging, backup, next);
    NotSwapped(volume.dirs, was, id, staging, backup, next, volume.fails);
    if staged {
      ok := SwapIn(volume, was, next, id, staging, backup);
    }
    ghost var swapped, found := volume.trace, volume.dirs;
    CleanUp(volume, was, next, id, staging, backup);
    OthersStay(volume.dirs, found, {staging}, id);
    EndsSoToo(ok, volume.dirs, found, was, id, staging, backup, next, volume.fails, from);
    if !staged {
      StagedTwice(volume.trace[|swapped|..], old(volume.dirs), was, staging);
    }
    StatesConcat(swapped[|first|..], volume.trace[|swapped|..], was, id, staging, backup, next);
    assert volume.trace[|first|..] == swapped[|first|..] + volume.trace[|swapped|..];
  }

  /** The same, seen from the beginning of the staging. */
  method FinishStaged<C(==)>(volume: Volume<C>, ghost was: Dirs<C>, ghost next: Package<C>, staged: bool, id: string,
                             staging: string, backup: string, ghost before: nat) returns (ok: bool)
    requires volume.Valid() && OnlyAt(volume.dirs, was, {staging}) && backup !in was && staging !in was
    requires staging != id && staging != backup && id != backup
    requires staged ==> volume.dirs == was[staging := next]
    requires before <= |volume.trace| && OnlyStaged(volume.trace[before..], was, staging)
    modifies volume
    ensures volume.Valid() && old(volume.trace) <= volume.trace && old(volume.failures) <= volume.failures
    ensures InstallStates(volume.trace[before..], was, id, staging, backup, next)
    ensures InstallState(volume.dirs, was, id, staging, backup, next)
    ensures !staged ==> OnlyStaged(volume.trace[before..], was, staging)
    ensures id in was && volume.failures <= old(volume.failures) + 1 ==> id in volume.dirs
    ensures ok ==> staged && volume.dirs == was[id := next]
    ensures EndsAs(ok, volume.dirs, was, id, backup, next, volume.fails,
                   if staged then Some(old(volume.step)) else None)
  {
    ghost var first := volume.trace;
    StagedIsNeutral(first[before..], was, was, id, staging, backup, next);
    ok := Finish(volume, was, next, staged, id, staging, backup);
    ghost var more := volume.trace[|first|..];
    StatesConcat(first[before..], more, was, id, staging, backup, next);
    if !staged {
      StagedMore(first[before..], more, was, staging);
    }
    assert volume.trace[before..] == first[before..] + more;
  }

  // ----- that it does happen

  /** A failing removal of the old package, which makes the installation fail with the new one in place. */
  method NewInPlaceHappens<C(==)>(previous: Package<C>, next: Package<C>) returns (ok: bool, dirs: Dirs<C>)
    ensures !ok && PackageAt(dirs, "package") == Some(next) && "backup" in dirs
  {
    var volume := new Volume(k => k == 2, map["package" := previous, "staging" := next]);
    ghost var was := map["package" := previous];
    assert volume.fails(2) && LeavesBoth(volume.fails, 0, Some(previous));
    assert volume.dirs == was["staging" := next] && volume.dirs - {"staging"} == was - {"staging"};
    ok := Finish(volume, was, next, true, "package", "staging", "backup");
    dirs := volume.dirs;
  }

  /** Failing moves of the new package and back of the old one, after which nothing is at the destination. */
  method NothingInPlaceHappens<C(==)>(previous: Package<C>, next: Package<C>) returns (ok: bool, dirs: Dirs<C>)
    ensures !ok && "package" !in dirs && PackageAt(dirs, "backup") == Some(previous)
  {
    var volume := new Volume(k => k == 1 || k == 2, map["package" := previous, "staging" := next]);
    ghost var was := map["package" := previous];
    assert volume.dirs == was["staging" := next] && volume.dirs - {"staging"} == was - {"staging"};
    ok := Finish(volume, was, next, true, "package", "staging", "backup");
    dirs := volume.dirs;
  }
}
