/**
 * A directory of packages on a disk where every operation may fail, and the stage, backup, swap and roll back
 * protocol that both installers follow (src-tauri/src/skills.rs install_one, src-tauri/src/pdf_models.rs
 * install_archive).
 */
module Disk {
  import opened Sequences

  /** The files of one package directory by relative path. */
  type Package<C> = map<string, C>

  /** The package directories by name. */
  type Dirs<C> = map<string, Package<C>>

  /** After moving a directory. */
  function Moved<C>(dirs: Dirs<C>, source: string, target: string): Dirs<C>
    requires source in dirs
  {
    (dirs - {source})[target := dirs[source]]
  }

  /** At most the directories with these names are not as they were. */
  predicate OnlyAt<C(==)>(dirs: Dirs<C>, was: Dirs<C>, names: set<string>) {
    dirs - names == was - names
  }

  /**
   * A package is not lost: the destination holds all of the old or all of the new one, or else it is absent and the
   * backup holds all of the old one, if there was one.
   */
  predicate Kept<C(==)>(dirs: Dirs<C>, destination: string, backup: string, was: Option<Package<C>>, next: Package<C>) {
    if destination in dirs then was == Some(dirs[destination]) || dirs[destination] == next
    else was.None? || (backup in dirs && dirs[backup] == was.value)
  }

  function PackageAt<C>(dirs: Dirs<C>, name: string): Option<Package<C>> {
    if name in dirs then Some(dirs[name]) else None
  }

  /** The old package is moved aside, and then the new one in, or the old one back. */
  lemma MovedTwice<C>(dirs: Dirs<C>, staging: string, destination: string, backup: string)
    requires staging in dirs && backup !in dirs
    requires staging != destination && staging != backup && destination != backup
    ensures destination in dirs ==>
              var aside := Moved(dirs, destination, backup);
              && Moved(aside, backup, destination) == dirs
              && OnlyAt(Moved(aside, staging, destination), Moved(dirs, staging, destination), {backup})
              && PackageAt(Moved(aside, staging, destination), backup) == PackageAt(dirs, destination)
  {
  }

  lemma OthersStay<C>(dirs: Dirs<C>, was: Dirs<C>, names: set<string>, other: string)
    requires OnlyAt(dirs, was, names) && other !in names
    ensures PackageAt(dirs, other) == PackageAt(was, other)
  {
    assert other in dirs <==> other in dirs - names;
    assert other in was <==> other in was - names;
    if other in dirs {
      assert (dirs - names)[other] == (was - names)[other];
    }
  }

  lemma OnlyAtMore<C>(dirs: Dirs<C>, middle: Dirs<C>, was: Dirs<C>, some: set<string>, all: set<string>)
    requires OnlyAt(dirs, middle, some) && OnlyAt(middle, was, all) && some <= all
    ensures OnlyAt(dirs, was, all)
  {
    assert dirs - all == (dirs - some) - all;
    assert middle - all == (middle - some) - all;
  }

  lemma OnlyAtGone<C>(dirs: Dirs<C>, was: Dirs<C>, name: string)
    requires OnlyAt(dirs, was, {name}) && name !in dirs
    ensures dirs == was - {name}
  {
    assert dirs == dirs - {name};
  }

  /** From the given state on, at most this directory is not as it was. */
  predicate OnlySince<C(==)>(trace: seq<Dirs<C>>, from: nat, was: Dirs<C>, name: string) {
    forall k :: from <= k < |trace| ==> OnlyAt(trace[k], was, {name})
  }

  // ----- which operations fail

  /** `n` operations in a row succeed, from number `step` on. */
  predicate Clean(fails: nat -> bool, step: nat, n: nat) {
    forall k :: step <= k < step + n ==> !fails(k)
  }

  lemma CleanNext(fails: nat -> bool, step: nat, n: nat)
    ensures Clean(fails, step, n + 1) <==> Clean(fails, step, n) && !fails(step + n)
  {
  }

  lemma CleanSoFar(fails: nat -> bool, step: nat, n: nat, total: nat)
    requires n < total && Clean(fails, step, n)
    ensures if fails(step + n) then !Clean(fails, step, total) else Clean(fails, step, n + 1)
  {
  }

  lemma CleanConcat(fails: nat -> bool, step: nat, m: nat, n: nat)
    ensures Clean(fails, step, m + n) <==> Clean(fails, step, m) && Clean(fails, step + m, n)
  {
    if Clean(fails, step, m) && Clean(fails, step + m, n) {
      forall k | step <= k < step + m + n
        ensures !fails(k)
      {
      }
    }
  }

  /** No operation fails any more. */
  ghost predicate AllWell(fails: nat -> bool, step: nat) {
    forall k :: step <= k ==> !fails(k)
  }

  /** A swap that starts at `step` succeeds: both moves, and the removal of the old package file by file. */
  predicate Replaces<C>(fails: nat -> bool, step: nat, previous: Option<Package<C>>) {
    match previous
    case None => !fails(step)
    case Some(package) => Clean(fails, step, |package| + 3)
  }

  /** Both moves succeed, but the old package's removal does not. */
  predicate LeavesBoth<C>(fails: nat -> bool, step: nat, previous: Option<Package<C>>) {
    previous.Some? && Clean(fails, step, 2) && !Clean(fails, step + 2, |previous.value| + 1)
  }

  /** The old package is moved away, and then neither the new one can be moved in nor the old one back. */
  predicate LeavesEmpty<C>(fails: nat -> bool, step: nat, previous: Option<Package<C>>) {
    previous.Some? && !fails(step) && fails(step + 1) && fails(step + 2)
  }

  class Volume<C(==)> {
    /** Whether an operation fails, by its number. */
    const fails: nat -> bool
    /** The number of the next operation. */
    var step: nat
    var dirs: Dirs<C>
    /** Every state the disk has been in, the present one last. */
    ghost var trace: seq<Dirs<C>>
    /** How many operations have failed. */
    ghost var failures: nat

    ghost predicate Valid()
      reads this
    {
      trace != [] && trace[|trace| - 1] == dirs
    }

    constructor (fails: nat -> bool, dirs: Dirs<C>)
      ensures Valid() && this.fails == fails && step == 0 && this.dirs == dirs && trace == [dirs] && failures == 0
    {
      this.fails, step, this.dirs, trace, failures := fails, 0, dirs, [dirs], 0;
    }

    /** Whether the next operation succeeds. */
    method Attempt() returns (ok: bool)
      modifies this`step, this`failures
      ensures ok == !fails(old(step)) && step == old(step) + 1
      ensures failures == old(failures) + (if ok then 0 else 1)
    {
      ok := !fails(step);
      step := step + 1;
      if !ok {
        failures := failures + 1;
      }
    }

    /** Replaces a whole directory's contents in one step of the disk. */
    method Put(name: string, package: Package<C>)
      requires Valid()
      modifies this`dirs, this`trace
      ensures Valid() && dirs == old(dirs)[name := package]
      ensures trace == old(trace) + [dirs]
    {
      dirs := dirs[name := package];
      trace := trace + [dirs];
    }

    /** Moves a directory at once, or fails and changes nothing; it never replaces another directory. */
    method Rename(source: string, target: string) returns (ok: bool)
      requires Valid() && source in dirs && source != target
      modifies this
      ensures Valid()
      ensures ok ==> target !in old(dirs) && dirs == Moved(old(dirs), source, target) && trace == old(trace) + [dirs]
      ensures !ok ==> dirs == old(dirs) && trace == old(trace)
      ensures failures == old(failures) + (if ok then 0 else 1)
      ensures target !in old(dirs) ==> ok == !fails(old(step)) && step == old(step) + 1
    {
      if target in dirs {
        failures := failures + 1;
        return false;
      }
      ok := Attempt();
      if ok {
        dirs := Moved(dirs, source, target);
        trace := trace + [dirs];
      }
    }

    /** Removes a directory file by file, and may stop on the way. */
    method RemoveDirAll(name: string) returns (ok: bool)
      requires Valid() && name in dirs
      modifies this
      ensures Valid() && old(trace) <= trace && OnlySince(trace, |old(trace)|, old(dirs), name)
      ensures OnlyAt(dirs, old(dirs), {name})
      ensures ok <==> name !in dirs
      ensures ok <==> Clean(fails, old(step), |old(dirs)[name]| + 1)
      ensures failures == old(failures) + (if ok then 0 else 1)
    {
      CleanNext(fails, step, |dirs[name]|);
      ok := RemoveFiles(name);
      if ok {
        ok := RemoveDir(name);
      }
    }

    /** Removes a directory without files. */
    method RemoveDir(name: string) returns (ok: bool)
      requires Valid() && name in dirs
      modifies this
      ensures Valid() && OnlyAt(dirs, old(dirs), {name})
      ensures ok == !fails(old(step)) && (ok <==> name !in dirs)
      ensures trace == old(trace) + (if ok then [dirs] else []) && failures == old(failures) + (if ok then 0 else 1)
    {
      ok := Attempt();
      if ok {
        dirs := dirs - {name};
        assert dirs - {name} == dirs;
        trace := trace + [dirs];
      }
    }

    /** Removes the files of a directory, and may stop on the way. */
    method RemoveFiles(name: string) returns (ok: bool)
      requires Valid() && name in dirs
      modifies this
      ensures Valid() && old(trace) <= trace && OnlySince(trace, |old(trace)|, old(dirs), name)
      ensures OnlyAt(dirs, old(dirs), {name}) && name in dirs
      ensures ok <==> Clean(fails, old(step), |old(dirs)[name]|)
      ensures ok ==> step == old(step) + |old(dirs)[name]|
      ensures failures == old(failures) + (if ok then 0 else 1)
    {
      ghost var was, from, first, total := dirs, |trace|, step, |dirs[name]|;
      ok := true;
      while ok && dirs[name] != map[]
        invariant Valid() && old(trace) <= trace && OnlySince(trace, from, was, name)
        invariant name in dirs && OnlyAt(dirs, was, {name}) && failures == old(failures) + (if ok then 0 else 1)
        invariant ok ==> step + |dirs[name]| == first + total && first <= step && Clean(fails, first, step - first)
        invariant !ok ==> !Clean(fails, first, total)
        decreases ok, dirs[name].Keys
      {
        CleanSoFar(fails, first, step - first, total);
        ok := RemoveFile(name);
      }
    }

    /** Removes some file of a directory. */
    method RemoveFile(name: string) returns (ok: bool)
      requires Valid() && name in dirs && dirs[name] != map[]
      modifies this
      ensures Valid() && name in dirs && OnlyAt(dirs, old(dirs), {name})
      ensures ok == !fails(old(step)) && step == old(step) + 1
      ensures ok ==> trace == old(trace) + [dirs] && failures == old(failures)
                     && dirs[name].Keys < old(dirs)[name].Keys && |dirs[name]| + 1 == |old(dirs)[name]|
      ensures !ok ==> dirs == old(dirs) && trace == old(trace) && failures == old(failures) + 1
    {
      ok := Attempt();
      if ok {
        var path :| path in dirs[name];
        assert dirs[name].Keys - {path} == (dirs[name] - {path}).Keys;
        Put(name, dirs[name] - {path});
      }
    }

    /** The new package is in place; the old one is removed from the backup. */
    method DropBackup(staging: string, destination: string, backup: string, ghost was: Dirs<C>) returns (ok: bool)
      requires Valid() && staging in was && backup !in was
      requires staging != destination && staging != backup && destination != backup
      requires OnlyAt(dirs, Moved(was, staging, destination), {backup})
      modifies this
      ensures Valid() && old(trace) <= trace
      ensures OnlySince(trace, |old(trace)|, Moved(was, staging, destination), backup)
      ensures OnlyAt(dirs, Moved(was, staging, destination), {backup})
      ensures ok <==> backup !in dirs
      ensures backup in dirs ==> backup in old(dirs)
      ensures failures == old(failures) + (if ok then 0 else 1)
      ensures ok ==> dirs == Moved(was, staging, destination)
      ensures ok <==> (backup in old(dirs) ==> Clean(fails, old(step), |old(dirs)[backup]| + 1))
    {
      ok := true;
      ghost var result := Moved(was, staging, destination);
      assert result - {backup} == result;
      if backup in dirs {
        ok := RemoveDirAll(backup);
      }
      if ok {
        OnlyAtGone(dirs, result, backup);
      }
    }

    /** The two moves; the old package is moved back if the new one cannot be moved in. */
    method Exchange(staging: string, destination: string, backup: string) returns (ok: bool)
      requires Valid() && staging in dirs && backup !in dirs
      requires staging != destination && staging != backup && destination != backup
      modifies this
      ensures Valid() && old(trace) <= trace
      ensures forall k :: |old(trace)| <= k < |trace| ==> SwapState(trace[k], old(dirs), staging, destination, backup)
      ensures ok <==> Clean(fails, old(step), if destination in old(dirs) then 2 else 1)
      ensures ok ==>
                && step == old(step) + (if destination in old(dirs) then 2 else 1) && failures == old(failures)
                && OnlyAt(dirs, Moved(old(dirs), staging, destination), {backup})
                && PackageAt(dirs, backup) == PackageAt(old(dirs), destination)
      ensures !ok ==>
                dirs == if LeavesEmpty(fails, old(step), PackageAt(old(dirs), destination))
                        then Moved(old(dirs), destination, backup) else old(dirs)
      ensures !ok ==>
                failures == old(failures)
                            + (if LeavesEmpty(fails, old(step), PackageAt(old(dirs), destination)) then 2 else 1)
    {
      CleanNext(fails, step, 0);
      CleanNext(fails, step, 1);
      if destination in dirs {
        ok := Rename(destination, backup);
        if !ok {
          return;
        }
      }
      MovedTwice(old(dirs), staging, destination, backup);
      ok := MoveIn(staging, destination, backup);
    }

    /** Moves the staged package in, or tries to move the old one back. */
    method MoveIn(staging: string, destination: string, backup: string) returns (ok: bool)
      requires Valid() && staging in dirs && destination !in dirs && staging != destination && destination != backup
      modifies this
      ensures Valid() && old(trace) <= trace
      ensures forall k :: |old(trace)| <= k < |trace| ==> trace[k] == dirs
      ensures ok == !fails(old(step))
      ensures ok ==> dirs == Moved(old(dirs), staging, destination) && step == old(step) + 1
      ensures !ok ==>
                dirs == if backup in old(dirs) && !fails(old(step) + 1)
                        then Moved(old(dirs), backup, destination) else old(dirs)
      ensures failures == old(failures)
                          + (if ok then 0 else if backup in old(dirs) && fails(old(step) + 1) then 2 else 1)
    {
      ok := Rename(staging, destination);
      if !ok && backup in dirs {
        var restored := Rename(backup, destination);
      }
    }

    /** Puts the staged package in place of the one at the destination, if there is one. */
    method Swap(staging: string, destination: string, backup: string) returns (ok: bool)
      requires Valid() && staging in dirs && backup !in dirs
      requires staging != destination && staging != backup && destination != backup
      modifies this
      ensures Valid() && old(trace) <= trace
      ensures forall k :: |old(trace)| <= k < |trace| ==> SwapState(trace[k], old(dirs), staging, destination, backup)
      ensures ok ==> dirs == Moved(old(dirs), staging, destination)
      // A failure left everything as it was, or only moved the old package aside, or came after the new one was in
      // place: the staging directory and the destination tell which.
      ensures !ok && staging in dirs && destination in dirs ==> dirs == old(dirs)
      ensures !ok && staging in dirs && destination !in dirs ==>
                dirs == if destination in old(dirs) then Moved(old(dirs), destination, backup) else old(dirs)
      ensures !ok && staging !in dirs ==>
                && destination in old(dirs) && backup in dirs
                && OnlyAt(dirs, Moved(old(dirs), staging, destination), {backup})
      ensures ok ==> failures == old(failures)
      ensures !ok ==> old(failures) < failures
      // Which operations fail decides which of these it is.
      ensures ok <==> Replaces(fails, old(step), PackageAt(old(dirs), destination))
      ensures !ok && staging !in dirs <==> LeavesBoth(fails, old(step), PackageAt(old(dirs), destination))
      ensures destination in old(dirs) && destination !in dirs <==>
                LeavesEmpty(fails, old(step), PackageAt(old(dirs), destination))
      // One failure is repaired: the destination is left empty only when the restoring move fails too.
      ensures destination in old(dirs) && destination !in dirs ==> failures == old(failures) + 2
    {
      ghost var previous := PackageAt(dirs, destination);
      ok := Exchange(staging, destination, backup);
      if !ok {
        return;
      }
      if previous.Some? {
        CleanConcat(fails, old(step), 2, |previous.value| + 1);
      }
      ok := DropBackup(staging, destination, backup, old(dirs));
      OthersStay(dirs, Moved(old(dirs), staging, destination), {backup}, destination);
      OthersStay(dirs, Moved(old(dirs), staging, destination), {backup}, staging);
    }
  }

  /** A disk that the swap passes through: as before, between the two moves, or with the new package in place. */
  predicate SwapState<C(==)>(dirs: Dirs<C>, was: Dirs<C>, staging: string, destination: string, backup: string)
    requires staging in was
  {
    || dirs == was
    || (destination in was && dirs == Moved(was, destination, backup))
    || OnlyAt(dirs, Moved(was, staging, destination), {backup})
  }

  /** Whatever fails, and wherever it stops, the package at the destination is not lost and no other is touched. */
  lemma SwapNeverLoses<C>(dirs: Dirs<C>, was: Dirs<C>, staging: string, destination: string, backup: string)
    requires staging in was && staging != destination && staging != backup && destination != backup
    requires SwapState(dirs, was, staging, destination, backup)
    ensures Kept(dirs, destination, backup, PackageAt(was, destination), was[staging])
    ensures OnlyAt(dirs, was, {staging, destination, backup})
  {
    var result := Moved(was, staging, destination);
    if OnlyAt(dirs, result, {backup}) {
      OthersStay(dirs, result, {backup}, destination);
      OnlyAtMore(dirs, result, was, {backup}, {staging, destination, backup});
    }
  }
}
