/** Installing and rolling back a release: a journalled switch of the `current` pointer, the launcher and
    the state file, where every write may fail or crash before or after it takes effect. */
module Installer {
  import opened Common

  type Version = string

  datatype Installed = Installed(current: Version, previous: Option<Version>)
  datatype Journal = Journal(from: Option<Version>, to: Version)
  datatype Launcher = NoLauncher | Managed | Foreign

  /** What happens at one write: a thrown error may leave the file replaced (a failed directory sync), and a
      crash ends the process, again before or after the replacement. */
  datatype Fault = Fine | Throws | ThrowsAfter | Crashes | CrashesAfter

  datatype Outcome = Done | Threw | Crashed

  function Seen(f: Fault): Outcome {
    match f
    case Fine => Done
    case Throws => Threw
    case ThrowsAfter => Threw
    case Crashes => Crashed
    case CrashesAfter => Crashed
  }

  predicate Takes(f: Fault) {
    f.Fine? || f.ThrowsAfter? || f.CrashesAfter?
  }

  function CurrentOf(state: Option<Installed>): Option<Version> {
    if state.Some? then Some(state.value.current) else None
  }

  /** The state an installation writes: the version it replaces becomes the previous one. */
  function AfterInstall(state: Option<Installed>, version: Version): Installed {
    match state
    case None => Installed(version, None)
    case Some(s) => Installed(version, if s.current != version then Some(s.current) else s.previous)
  }

  function AfterRollback(s: Installed): Installed
    requires s.previous.Some?
  {
    Installed(s.previous.value, Some(s.current))
  }

  class Disk {
    var state: Option<Installed>
    var pointer: Option<Version>
    var launcher: Launcher
    var journal: Option<Journal>
    /** Releases that are complete and pass validation. */
    var releases: set<Version>
    /** Release directories that are there but do not pass. */
    var broken: set<Version>
    /** Whether the launcher's directory is a real one that only its owner can write to. */
    var binUsable: bool
    /** The faults to come, one for each write. */
    var faults: seq<Fault>

    ghost predicate Kept(v: Option<Version>)
      reads this
    {
      v.Some? ==> v.value in releases
    }

    /** Without a journal the pointer agrees with the state; with one, the state is that before or after it. */
    ghost predicate Sound()
      reads this
    {
      && Kept(CurrentOf(state)) && (state.Some? ==> Kept(state.value.previous)) && releases !! broken
      && match journal
         case None => pointer == CurrentOf(state)
         case Some(j) =>
           Kept(j.from) && Kept(Some(j.to)) && (CurrentOf(state) == Some(j.to) || CurrentOf(state) == j.from)
    }

    ghost predicate Settled()
      reads this
    {
      Sound() && journal.None?
    }

    /** Nothing stands in the way of writing the launcher. */
    ghost predicate LauncherFree()
      reads this
    {
      binUsable && launcher != Foreign
    }

    ghost predicate NoFaults()
      reads this
    {
      forall i :: 0 <= i < |faults| ==> faults[i].Fine?
    }

    constructor ()
      ensures Settled() && state.None? && launcher.NoLauncher?
    {
      state, pointer, launcher, journal, releases, faults := None, None, NoLauncher, None, {}, [];
      broken, binUsable := {}, true;
    }

    method NextFault() returns (f: Fault)
      modifies this`faults
      ensures f == (if old(faults) == [] then Fine else old(faults)[0])
      ensures old(NoFaults()) ==> NoFaults() && f.Fine?
    {
      if faults == [] { return Fine; }
      f, faults := faults[0], faults[1..];
    }

    method SwitchCurrent(version: Version) returns (r: Outcome)
      modifies this`faults, this`pointer
      ensures pointer == old(pointer) || pointer == Some(version)
      ensures r.Done? ==> pointer == Some(version)
      ensures old(NoFaults()) ==> NoFaults() && r.Done?
    {
      var f := NextFault();
      if Takes(f) { pointer := Some(version); }
      r := Seen(f);
    }

    method WriteLauncher() returns (r: Outcome)
      modifies this`faults, this`launcher
      ensures launcher == old(launcher) || (old(launcher) != Foreign && launcher == Managed)
      ensures r.Done? ==> launcher == Managed && old(LauncherFree())
      ensures old(NoFaults()) ==> NoFaults() && (r.Done? <==> old(LauncherFree())) && !r.Crashed?
    {
      var f := NextFault();
      if !binUsable || launcher == Foreign { return if f.Crashes? then Crashed else Threw; }
      if Takes(f) { launcher := Managed; }
      r := Seen(f);
    }

    method WriteState(next: Installed) returns (r: Outcome)
      modifies this`faults, this`state
      ensures state == old(state) || state == Some(next)
      ensures r.Done? ==> state == Some(next)
      ensures old(NoFaults()) ==> NoFaults() && r.Done?
    {
      var f := NextFault();
      if Takes(f) { state := Some(next); }
      r := Seen(f);
    }

    method UnlinkState() returns (r: Outcome)
      modifies this`faults, this`state
      ensures state == old(state) || state == None
      ensures r.Done? ==> state == None
      ensures old(NoFaults()) ==> NoFaults() && r.Done?
    {
      var f := NextFault();
      if Takes(f) { state := None; }
      r := Seen(f);
    }

    method WriteJournal(next: Journal) returns (r: Outcome)
      modifies this`faults, this`journal
      ensures journal == old(journal) || journal == Some(next)
      ensures r.Done? ==> journal == Some(next)
      ensures old(NoFaults()) ==> NoFaults() && r.Done?
    {
      var f := NextFault();
      if Takes(f) { journal := Some(next); }
      r := Seen(f);
    }

    method ClearJournal() returns (r: Outcome)
      modifies this`faults, this`journal
      ensures journal == old(journal) || journal == None
      ensures r.Done? ==> journal == None
      ensures old(NoFaults()) ==> NoFaults() && r.Done?
    {
      var f := NextFault();
      if Takes(f) { journal := None; }
      r := Seen(f);
    }

    method RemoveCurrentAndLauncher() returns (r: Outcome)
      modifies this`faults, this`pointer, this`launcher
      ensures pointer == old(pointer) || pointer == None
      ensures launcher == old(launcher) || (old(launcher) == Managed && launcher == NoLauncher)
      ensures r.Done? ==> pointer == None && launcher != Managed
      ensures old(NoFaults()) ==> NoFaults() && r.Done?
    {
      var f := NextFault();
      if Takes(f) { pointer := None; }
      if !f.Fine? { return Seen(f); }
      f := NextFault();
      if Takes(f) && launcher == Managed { launcher := NoLauncher; }
      r := Seen(f);
    }

    /** Copying a release to a staging directory and renaming it into place. */
    method StageRelease(version: Version) returns (r: Outcome)
      modifies this`faults, this`releases
      ensures releases == old(releases) || releases == old(releases) + {version}
      ensures r.Done? ==> version in releases
      ensures old(NoFaults()) ==> NoFaults() && r.Done?
    {
      var f := NextFault();
      if Takes(f) { releases := releases + {version}; }
      r := Seen(f);
    }

    // ----- recovery

    /** Whatever happens, recovery leaves the state file alone and can be run again; when it completes, no
        journal is left and pointer, launcher and state agree. */
    method RecoverTransaction() returns (r: Outcome)
      requires Sound()
      modifies this`faults, this`pointer, this`launcher, this`journal
      ensures Sound() && state == old(state) && (journal == old(journal) || journal.None?)
      ensures r.Done? ==> Settled()
      ensures r.Done? && old(journal).Some? ==> (launcher == Managed <==> state.Some?)
      ensures old(journal).None? ==>
                r.Done? && pointer == old(pointer) && launcher == old(launcher) && faults == old(faults)
      ensures launcher == Foreign <==> old(launcher) == Foreign
      ensures old(NoFaults()) ==>
                NoFaults() && (r.Done? <==> (old(LauncherFree()) || old(journal).None? || state.None?))
    {
      if journal.None? { return Done; }
      var j := journal.value;
      if CurrentOf(state) == Some(j.to) {
        r := PointAt(j.to);
      } else if j.from.Some? {
        r := PointAt(j.from.value);
      } else {
        r := RemoveCurrentAndLauncher();
      }
      if !r.Done? { return; }
      r := ClearJournal();
    }

    /** `validateRecoveryTarget`, `switchCurrent`, `writeLauncher`. */
    method PointAt(version: Version) returns (r: Outcome)
      modifies this`faults, this`pointer, this`launcher
      ensures pointer == old(pointer) || pointer == Some(version)
      ensures launcher == old(launcher) || (old(launcher) != Foreign && launcher == Managed)
      ensures r.Done? ==> version in releases && pointer == Some(version) && launcher == Managed
      ensures old(NoFaults()) ==> NoFaults() && (r.Done? <==> version in releases && old(LauncherFree()))
    {
      if version !in releases { return Threw; }
      r := SwitchCurrent(version);
      if !r.Done? { return; }
      r := WriteLauncher();
    }

    // ----- the switch, shared by installation and rollback

    /** Undo after an error: the state first, then the pointer and the launcher, then the journal. */
    method Restore(before: Option<Installed>) returns (r: Outcome)
      requires Sound() && journal.Some? && journal.value.from == CurrentOf(before)
      requires before.Some? ==> Kept(before.value.previous)
      modifies this`faults, this`state, this`pointer, this`launcher, this`journal
      ensures Sound() && (state == old(state) || state == before)
      ensures r.Done? ==> Settled() && state == before
    {
      if before.Some? {
        r := WriteState(before.value);
        if !r.Done? { return; }
        r := SwitchCurrent(before.value.current);
        if !r.Done? { return; }
        r := WriteLauncher();
      } else {
        r := UnlinkState();
        if !r.Done? { return; }
        r := RemoveCurrentAndLauncher();
      }
      if !r.Done? { return; }
      r := ClearJournal();
    }

    method Switch(next: Installed) returns (r: Outcome)
      requires Settled() && next.current in releases && Kept(next.previous)
      modifies this`faults, this`state, this`pointer, this`launcher, this`journal
      ensures Sound() && (state == old(state) || state == Some(next))
      ensures r.Done? ==> Settled() && state == Some(next) && launcher == Managed && old(LauncherFree())
      ensures old(NoFaults()) && old(LauncherFree()) ==> r.Done?
    {
      var before := state;
      r := WriteJournal(Journal(CurrentOf(before), next.current));
      if !r.Done? { return; }
      r := SwitchCurrent(next.current);
      if r.Done? { r := WriteLauncher(); }
      if r.Done? { r := WriteState(next); }
      if r.Crashed? { return; }
      if r.Threw? {
        r := Restore(before);
        return if r.Crashed? then Crashed else Threw;
      }
      r := ClearJournal();
    }

    /** Installing a version, over whatever an interrupted installation left: at every outcome the state is
        exactly that before or that after, and another recovery can complete it. */
    method Install(version: Version) returns (r: Outcome)
      requires Sound()
      modifies this
      ensures Sound() && (state == old(state) || state == Some(AfterInstall(old(state), version)))
      ensures r.Done? ==> Settled() && state == Some(AfterInstall(old(state), version)) && launcher == Managed
      // a release that is there but does not pass, and a launcher in the way, refuse; nothing else but a fault does
      ensures r.Done? ==> version !in old(broken) && old(LauncherFree())
      ensures old(NoFaults()) && version !in old(broken) && old(LauncherFree()) ==> r.Done?
      // a refused release is left as it is, and no journal is begun for it
      ensures version in old(broken) ==> !r.Done? && state == old(state) && (journal.None? || journal == old(journal))
      ensures broken == old(broken) && binUsable == old(binUsable)
      ensures old(releases) <= releases <= old(releases) + {version}
    {
      r := RecoverTransaction();
      if !r.Done? { return; }
      if !binUsable { return Threw; }
      if state.None? && pointer.Some? { return Threw; }
      if version !in releases && version !in broken {
        r := StageRelease(version);
        if !r.Done? { return; }
      }
      if version !in releases { return Threw; }
      r := Switch(AfterInstall(state, version));
    }

    method Rollback() returns (r: Outcome)
      requires Sound()
      modifies this
      ensures Sound()
      ensures state == old(state)
              || (old(state).Some? && old(state).value.previous.Some? && state == Some(AfterRollback(old(state).value)))
      ensures r.Done? ==>
                old(state).Some? && old(state).value.previous.Some? && state == Some(AfterRollback(old(state).value))
                && Settled()
    {
      r := RecoverTransaction();
      if !r.Done? { return; }
      if !binUsable { return Threw; }
      if state.None? || state.value.previous.None? { return Threw; }
      if state.value.previous.value !in releases { return Threw; }
      r := Switch(AfterRollback(state.value));
    }

    /** Two rollbacks bring back the pair of releases they started from. */
    method RollBackTwice() returns (r: Outcome)
      requires Sound()
      modifies this
      ensures Sound()
      ensures r.Done? ==> state == old(state) && pointer == CurrentOf(old(state)) && journal.None?
    {
      r := Rollback();
      if !r.Done? { return; }
      r := Rollback();
    }

    /** Recovers until it completes, at most so many times. */
    method RecoverUntilDone(attempts: nat, so: Outcome) returns (r: Outcome)
      requires Sound() && (so.Done? ==> Settled())
      modifies this`faults, this`pointer, this`launcher, this`journal
      ensures Sound() && state == old(state)
      ensures r.Done? ==> journal.None? && pointer == CurrentOf(state)
    {
      r := so;
      var n := 0;
      while n < attempts && !r.Done?
        invariant Sound() && state == old(state) && (r.Done? ==> Settled())
      {
        r := RecoverTransaction();
        n := n + 1;
      }
    }

    /** An interrupted installation followed by any number of interrupted recoveries and a completed one:
        the state is that before or after the installation, and everything agrees with it. */
    method InstallThenRecover(version: Version, attempts: nat) returns (r: Outcome)
      requires Sound()
      modifies this
      ensures Sound() && (state == old(state) || state == Some(AfterInstall(old(state), version)))
      ensures r.Done? ==> journal.None? && pointer == CurrentOf(state)
    {
      r := Install(version);
      r := RecoverUntilDone(attempts, r);
    }

    /** The same after an interrupted rollback: the two releases are exchanged or they are not. */
    method RollbackThenRecover(attempts: nat) returns (r: Outcome)
      requires Sound()
      modifies this
      ensures Sound()
      ensures state == old(state)
              || (old(state).Some? && old(state).value.previous.Some? && state == Some(AfterRollback(old(state).value)))
      ensures r.Done? ==> journal.None? && pointer == CurrentOf(state)
    {
      r := Rollback();
      r := RecoverUntilDone(attempts, r);
    }
  }
}
