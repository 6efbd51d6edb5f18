/** The install lock: a directory whose owner file names a process, taken over by moving a dead owner's
    directory to a quarantine named after it. Any number of processes, any interleaving of their calls to
    the file system, crashes anywhere. */
module InstallLock {
  import opened Common

  type Process = nat
  /** The identity of a directory; identities are never reused. */
  type Inode = nat

  datatype Owner = NoFile | Torn | Named(pid: Process)

  /** Where a process stands in one acquisition; each state waits for one call to the file system. */
  datatype Pc =
    | Begin
    | Created(dir: Inode) | Identified(dir: Inode) | Writing(dir: Inode) | Critical(dir: Inode)
    | Leaving(dir: Inode) | Unlinking(dir: Inode) | RemovingDir(dir: Inode)
    | Inspecting | Reading(seen: Inode) | Missing(seen: Inode) | Rechecking(seen: Inode, pid: Process)
    | Probing(seen: Inode, pid: Process) | Taking(seen: Inode) | Refused(seen: Inode) | Confirming(seen: Inode)
    | Finished | Failed
    /** Crashed; `held` is its directory when it crashed with its owner file in place. */
    | Crashed(held: Option<Inode>)

  /** `maker` remembers who created each directory; no process reads it. */
  datatype State = State(
    lock: Option<Inode>, owner: map<Inode, Owner>, quarantine: map<Inode, Inode>, next: Inode,
    pc: map<Process, Pc>, maker: map<Inode, Process>)

  predicate Initial(s: State) {
    && s.next == 0 && s.lock.None? && s.quarantine == map[] && s.owner == map[] && s.maker == map[]
    && forall p :: p in s.pc ==> s.pc[p] == Begin
  }

  function Goto(s: State, p: Process, pc: Pc): State {
    s.(pc := s.pc[p := pc])
  }

  function OwnerOf(s: State, d: Inode): Owner {
    if d in s.owner then s.owner[d] else NoFile
  }

  /** A process id reads dead when its process crashed and left its owner file; with `exits` it may also read
      dead because the process has gone for any other reason. */
  predicate ReadsDead(s: State, p: Process, exits: bool) {
    p in s.pc && match s.pc[p]
                 case Crashed(held) => held.Some? || exits
                 case Finished => exits
                 case Failed => exits
                 case _ => false
  }

  /** A rename onto a quarantine that holds a directory with a file in it fails. */
  predicate Occupied(s: State, k: Inode) {
    k in s.quarantine && OwnerOf(s, s.quarantine[k]) != NoFile
  }

  function Crash(s: State, p: Process): State
    requires p in s.pc
  {
    Goto(s, p, match s.pc[p]
               case Critical(d) => Crashed(Some(d))
               case Leaving(d) => Crashed(if OwnerOf(s, d) == Named(p) then Some(d) else None)
               case Unlinking(d) => Crashed(if OwnerOf(s, d) == Named(p) then Some(d) else None)
               case Crashed(held) => Crashed(held)
               case _ => Crashed(None))
  }

  // ----- one call of one process

  predicate Acquires(s: State, t: State, p: Process)
    requires p in s.pc
  {
    match s.pc[p]
    case Begin =>
      if s.lock.None? then
        t == s.(lock := Some(s.next), owner := s.owner[s.next := NoFile], next := s.next + 1,
                maker := s.maker[s.next := p], pc := s.pc[p := Created(s.next)])
      else t == Goto(s, p, Inspecting)
    case Created(_) => t == Goto(s, p, if s.lock.Some? then Identified(s.lock.value) else Failed)
    case Identified(d) =>
      || t == Goto(s, p, Leaving(d))
      || (s.lock.Some? && OwnerOf(s, s.lock.value) == NoFile
          && t == Goto(s.(owner := s.owner[s.lock.value := Torn]), p, Writing(d)))
    case Writing(d) =>
      || t == Goto(s, p, Leaving(d))
      || (s.lock.Some? && t == Goto(s.(owner := s.owner[s.lock.value := Named(p)]), p, Critical(d)))
    case Critical(d) => t == Goto(s, p, Leaving(d))
    case Leaving(d) => t == Goto(s, p, if s.lock == Some(d) then Unlinking(d) else Finished)
    case Unlinking(d) =>
      t == if s.lock.Some? then Goto(s.(owner := s.owner[s.lock.value := NoFile]), p, RemovingDir(d))
           else Goto(s, p, Finished)
    case RemovingDir(_) =>
      t == if s.lock.Some? && OwnerOf(s, s.lock.value) == NoFile then Goto(s.(lock := None), p, Finished)
           else Goto(s, p, Failed)
    case _ => false
  }

  predicate Contends(s: State, t: State, p: Process, exits: bool)
    requires p in s.pc
  {
    match s.pc[p]
    case Inspecting => t == Goto(s, p, if s.lock.Some? then Reading(s.lock.value) else Begin)
    case Reading(seen) =>
      t == Goto(s, p, match (if s.lock.Some? then OwnerOf(s, s.lock.value) else NoFile)
                      case NoFile => Missing(seen)
                      case Torn => Failed
                      case Named(pid) => Rechecking(seen, pid))
    case Missing(seen) => t == Goto(s, p, if s.lock == Some(seen) then Failed else Begin)
    case Rechecking(seen, pid) => t == Goto(s, p, if s.lock == Some(seen) then Probing(seen, pid) else Begin)
    case Probing(seen, pid) =>
      t == Goto(s, p, Failed) || (ReadsDead(s, pid, exits) && t == Goto(s, p, Taking(seen)))
    case Taking(seen) =>
      t == if s.lock.Some? && !Occupied(s, seen) then
             Goto(s.(lock := None, quarantine := s.quarantine[seen := s.lock.value]), p, Confirming(seen))
           else Goto(s, p, Refused(seen))
    case Refused(seen) => t == Goto(s, p, if s.lock == Some(seen) then Failed else Begin)
    case Confirming(seen) =>
      t == Goto(s, p, if seen in s.quarantine && s.quarantine[seen] == seen then Begin else Failed)
    case _ => false
  }

  predicate Next(s: State, t: State, exits: bool) {
    exists p :: p in s.pc && (t == Crash(s, p) || Acquires(s, t, p) || Contends(s, t, p, exits))
  }

  ghost predicate IsRun(run: seq<State>, exits: bool) {
    && run != [] && Initial(run[0])
    && forall i :: 0 <= i < |run| - 1 ==> Next(run[i], run[i + 1], exits)
  }

  // ----- the invariant

  predicate Contender(pc: Pc) {
    match pc
    case Begin => true
    case Inspecting => true
    case Reading(_) => true
    case Missing(_) => true
    case Rechecking(_, _) => true
    case Probing(_, _) => true
    case Taking(_) => true
    case Refused(_) => true
    case Confirming(_) => true
    case _ => false
  }

  predicate Holds(pc: Pc, d: Inode) {
    match pc
    case Created(e) => e == d
    case Identified(e) => e == d
    case Writing(e) => e == d
    case Critical(e) => e == d
    case Leaving(e) => e == d
    case Unlinking(e) => e == d
    case RemovingDir(e) => e == d
    case _ => false
  }

  predicate Seen(pc: Pc, k: Inode) {
    match pc
    case Reading(e) => e == k
    case Missing(e) => e == k
    case Rechecking(e, _) => e == k
    case Probing(e, _) => e == k
    case Taking(e) => e == k
    case _ => false
  }

  ghost predicate Bounded(lock: Option<Inode>, owner: map<Inode, Owner>, maker: map<Inode, Process>, next: Inode) {
    && (lock.Some? ==> lock.value < next)
    && (forall d: Inode :: d in maker <==> d < next)
    && (forall d: Inode :: d in owner ==> d < next)
  }

  ghost predicate SeenBounded(pc: map<Process, Pc>, next: Inode) {
    forall p, k: Inode :: p in pc && Seen(pc[p], k) ==> k < next
  }

  /** A process that is in the lock, or on its way in or out, has its own directory at the lock's path. */
  ghost predicate HoldersHold(pc: map<Process, Pc>, lock: Option<Inode>, maker: map<Inode, Process>) {
    forall p, d: Inode :: p in pc && Holds(pc[p], d) ==> lock == Some(d) && d in maker && maker[d] == p
  }

  /** An owner file names the maker of its directory. */
  ghost predicate OwnersMade(owner: map<Inode, Owner>, maker: map<Inode, Process>) {
    forall d :: d in owner && owner[d].Named? ==> d in maker && maker[d] == owner[d].pid
  }

  /** The directory of a process that crashed holding the lock keeps its owner file, at the path or in its
      own quarantine. */
  ghost predicate CrashesStay(
      pc: map<Process, Pc>, lock: Option<Inode>, owner: map<Inode, Owner>, quarantine: map<Inode, Inode>,
      maker: map<Inode, Process>)
  {
    forall p, d :: p in pc && pc[p] == Crashed(Some(d)) ==>
      && d in maker && maker[d] == p && d in owner && owner[d] == Named(p)
      && (lock == Some(d) || (d in quarantine && quarantine[d] == d))
  }

  ghost predicate CriticalOwns(pc: map<Process, Pc>, owner: map<Inode, Owner>) {
    forall p, d :: p in pc && pc[p] == Critical(d) ==> d in owner && owner[d] == Named(p)
  }

  /** What a contender rightly believes about the directory it has seen. */
  ghost predicate Believes(at: Pc, pc: map<Process, Pc>, lock: Option<Inode>, maker: map<Inode, Process>) {
    match at
    case Rechecking(seen, pid) => lock == Some(seen) ==> seen in maker && maker[seen] == pid
    case Probing(seen, pid) => seen in maker && maker[seen] == pid
    case Taking(seen) => seen in maker && maker[seen] in pc && pc[maker[seen]] == Crashed(Some(seen))
    case _ => true
  }

  ghost predicate Beliefs(pc: map<Process, Pc>, lock: Option<Inode>, maker: map<Inode, Process>) {
    forall p :: p in pc ==> Believes(pc[p], pc, lock, maker)
  }

  /** A process makes at most one directory, and none while it still contends. */
  ghost predicate MakesOne(pc: map<Process, Pc>, maker: map<Inode, Process>) {
    && (forall d, e :: d in maker && e in maker && maker[d] == maker[e] ==> d == e)
    && (forall p, d :: p in pc && Contender(pc[p]) && d in maker ==> maker[d] != p)
  }

  ghost predicate Inv(s: State) {
    && Bounded(s.lock, s.owner, s.maker, s.next) && SeenBounded(s.pc, s.next) && HoldersHold(s.pc, s.lock, s.maker)
    && OwnersMade(s.owner, s.maker) && CrashesStay(s.pc, s.lock, s.owner, s.quarantine, s.maker)
    && CriticalOwns(s.pc, s.owner) && Beliefs(s.pc, s.lock, s.maker) && MakesOne(s.pc, s.maker)
  }

  // ----- each change of the file system, and each change of a program counter, keeps it

  lemma InitialHolds(s: State)
    requires Initial(s)
    ensures Inv(s)
  {
  }

  /** A process moves on without touching the file system. */
  ghost predicate MayGo(s: State, p: Process, to: Pc) {
    && p in s.pc && (s.pc[p].Crashed? ==> to == s.pc[p]) && (Contender(to) ==> Contender(s.pc[p]))
    && (forall d: Inode :: Holds(to, d) ==> s.lock == Some(d) && d in s.maker && s.maker[d] == p)
    && (forall k: Inode :: Seen(to, k) ==> k < s.next)
    && (forall d :: to == Crashed(Some(d)) || to == Critical(d) ==>
          d in s.maker && s.maker[d] == p && d in s.owner && s.owner[d] == Named(p))
    && (forall d :: to == Crashed(Some(d)) ==> s.lock == Some(d) || (d in s.quarantine && s.quarantine[d] == d))
    && Believes(to, s.pc, s.lock, s.maker)
  }

  lemma GotoKeepsHolders(s: State, p: Process, to: Pc)
    requires Inv(s) && MayGo(s, p, to)
    ensures var pc := s.pc[p := to];
            && SeenBounded(pc, s.next) && HoldersHold(pc, s.lock, s.maker) && MakesOne(pc, s.maker)
  {
    hide Bounded, OwnersMade, CrashesStay, CriticalOwns, Beliefs, Believes, Contender, Holds, Seen;
  }

  lemma GotoKeepsOwners(s: State, p: Process, to: Pc)
    requires Inv(s) && MayGo(s, p, to)
    ensures var pc := s.pc[p := to];
            CrashesStay(pc, s.lock, s.owner, s.quarantine, s.maker) && CriticalOwns(pc, s.owner)
  {
    hide Bounded, SeenBounded, HoldersHold, OwnersMade, Beliefs, MakesOne, Believes, Contender, Holds, Seen;
  }

  /** A process that moves on was not crashed, or stays so; the others' beliefs speak of crashed processes only. */
  lemma GotoKeepsBeliefs(s: State, p: Process, to: Pc)
    requires Beliefs(s.pc, s.lock, s.maker) && p in s.pc && Believes(to, s.pc, s.lock, s.maker)
    requires s.pc[p].Crashed? ==> to == s.pc[p]
    ensures Beliefs(s.pc[p := to], s.lock, s.maker)
  {
    var pc := s.pc[p := to];
    forall q | q in pc ensures Believes(pc[q], pc, s.lock, s.maker) {
      assert q == p || Believes(s.pc[q], s.pc, s.lock, s.maker);
    }
  }

  lemma GotoKeeps(s: State, p: Process, to: Pc)
    requires Inv(s) && MayGo(s, p, to)
    ensures Inv(Goto(s, p, to))
  {
    GotoKeepsHolders(s, p, to);
    GotoKeepsOwners(s, p, to);
    GotoKeepsBeliefs(s, p, to);
    hide Bounded, SeenBounded, HoldersHold, OwnersMade, CrashesStay, CriticalOwns, Beliefs, MakesOne;
  }

  lemma MkdirKeeps(s: State, p: Process)
    requires Inv(s) && s.lock.None? && p in s.pc && s.pc[p].Begin?
    ensures Inv(s.(lock := Some(s.next), owner := s.owner[s.next := NoFile], next := s.next + 1,
                   maker := s.maker[s.next := p], pc := s.pc[p := Created(s.next)]))
  {
    assert s.next !in s.maker && s.next !in s.owner;
    MkdirKeepsMakers(s.pc, s.maker, p, s.next);
    MkdirKeepsBeliefs(s, p);
    MkdirKeepsSeen(s.pc, p, s.next);
    MkdirKeepsHolders(s, p);
    hide MakesOne, SeenBounded, Beliefs, HoldersHold, CrashesStay;
  }

  lemma MkdirKeepsHolders(s: State, p: Process)
    requires HoldersHold(s.pc, s.lock, s.maker) && CrashesStay(s.pc, s.lock, s.owner, s.quarantine, s.maker)
    requires s.lock.None? && p in s.pc && s.pc[p].Begin? && s.next !in s.maker && s.next !in s.owner
    ensures HoldersHold(s.pc[p := Created(s.next)], Some(s.next), s.maker[s.next := p])
    ensures CrashesStay(s.pc[p := Created(s.next)], Some(s.next), s.owner[s.next := NoFile], s.quarantine,
                        s.maker[s.next := p])
  {
  }

  lemma MkdirKeepsSeen(pc: map<Process, Pc>, p: Process, next: Inode)
    requires SeenBounded(pc, next) && p in pc
    ensures SeenBounded(pc[p := Created(next)], next + 1)
  {
  }

  lemma MkdirKeepsMakers(pc: map<Process, Pc>, maker: map<Inode, Process>, p: Process, next: Inode)
    requires MakesOne(pc, maker) && p in pc && pc[p].Begin? && next !in maker
    ensures MakesOne(pc[p := Created(next)], maker[next := p])
  {
    assert Contender(pc[p]);
  }

  lemma MkdirKeepsBeliefs(s: State, p: Process)
    requires Beliefs(s.pc, s.lock, s.maker) && SeenBounded(s.pc, s.next) && s.lock.None? && p in s.pc && s.pc[p].Begin?
    requires s.next !in s.maker
    ensures Beliefs(s.pc[p := Created(s.next)], Some(s.next), s.maker[s.next := p])
  {
    var pc, maker := s.pc[p := Created(s.next)], s.maker[s.next := p];
    forall q | q in pc ensures Believes(pc[q], pc, Some(s.next), maker) {
      if q != p {
        assert Believes(s.pc[q], s.pc, s.lock, s.maker);
        assert !Seen(s.pc[q], s.next);
      }
    }
  }

  lemma OwnerFileKeeps(s: State, p: Process, d: Inode, file: Owner)
    requires Inv(s) && p in s.pc && Holds(s.pc[p], d) && (s.pc[p].Critical? ==> file == Named(p))
    requires (file.Named? ==> file == Named(p))
    ensures Inv(s.(owner := s.owner[d := file]))
  {
    assert s.maker[d] == p;
    var owner := s.owner[d := file];
    assert OwnersMade(owner, s.maker);
    assert CrashesStay(s.pc, s.lock, owner, s.quarantine, s.maker);
    forall q, e | q in s.pc && s.pc[q] == Critical(e) ensures e in owner && owner[e] == Named(q) {
      assert Holds(s.pc[q], e);
    }
  }

  lemma RmdirKeeps(s: State, p: Process, d: Inode)
    requires Inv(s) && p in s.pc && s.lock == Some(d) && d in s.maker && s.maker[d] == p
    requires !s.pc[p].Crashed? && !Holds(s.pc[p], d)
    ensures Inv(s.(lock := None))
  {
  }

  lemma QuarantineKeeps(s: State, p: Process, k: Inode)
    requires Inv(s) && s.lock == Some(k) && k in s.maker && s.maker[k] in s.pc && s.pc[s.maker[k]] == Crashed(Some(k))
    ensures Inv(s.(lock := None, quarantine := s.quarantine[k := k]))
  {
  }

  lemma CrashKeeps(s: State, p: Process)
    requires Inv(s) && p in s.pc
    ensures Inv(Crash(s, p))
  {
    var t := Crash(s, p);
    assert Holds(s.pc[p], s.next) ==> false;
    assert t == Goto(s, p, t.pc[p]);
    CrashMayGo(s, p);
    hide Inv, MayGo, Crash;
    GotoKeeps(s, p, t.pc[p]);
  }

  lemma CrashMayGo(s: State, p: Process)
    requires Inv(s) && p in s.pc
    ensures MayGo(s, p, Crash(s, p).pc[p])
  {
    var to := Crash(s, p).pc[p];
    CrashEnds(s, p);
    if s.pc[p].Crashed? {
    } else if to != Crashed(None) {
      HeldWhenCrashed(s, p, to.held.value);
    }
  }

  lemma CrashEnds(s: State, p: Process)
    requires p in s.pc
    ensures Crash(s, p).pc[p].Crashed? && (s.pc[p].Crashed? ==> Crash(s, p).pc[p] == s.pc[p])
  {
  }

  lemma HeldWhenCrashed(s: State, p: Process, d: Inode)
    requires Inv(s) && p in s.pc && !s.pc[p].Crashed? && Crash(s, p).pc[p] == Crashed(Some(d))
    ensures s.lock == Some(d) && d in s.maker && s.maker[d] == p && d in s.owner && s.owner[d] == Named(p)
  {
    hide SeenBounded, OwnersMade, CrashesStay, Beliefs, MakesOne;
    assert Holds(s.pc[p], d);
  }

  lemma AcquiresKeeps(s: State, t: State, p: Process)
    requires Inv(s) && p in s.pc && Acquires(s, t, p)
    ensures Inv(t)
  {
    match s.pc[p] {
      case Begin =>
        if s.lock.None? {
          MkdirKeeps(s, p);
        } else {
          GotoKeeps(s, p, Inspecting);
        }
      case Created(d) => EntersKeeps(s, t, p, d);
      case Identified(d) => EntersKeeps(s, t, p, d);
      case Writing(d) => EntersKeeps(s, t, p, d);
      case Critical(d) => LeavesKeeps(s, t, p, d);
      case Leaving(d) => LeavesKeeps(s, t, p, d);
      case Unlinking(d) => LeavesKeeps(s, t, p, d);
      case RemovingDir(d) => LeavesKeeps(s, t, p, d);
      case _ =>
    }
  }

  /** A process that holds its directory moves on, or is done with it. */
  lemma HolderGoes(s: State, p: Process, d: Inode, to: Pc)
    requires Inv(s) && p in s.pc && Holds(s.pc[p], d) && (Holds(to, d) || to.Finished? || to.Failed?)
    requires to.Critical? ==> OwnerOf(s, d) == Named(p)
    ensures Inv(Goto(s, p, to)) && s.lock == Some(d) && d in s.maker && s.maker[d] == p
  {
    OnlyHeld(to, d);
    assert MayGo(s, p, to) by {
      hide SeenBounded, OwnersMade, CrashesStay, Beliefs, MakesOne;
      assert Believes(to, s.pc, s.lock, s.maker);
    }
    hide Inv, MayGo;
    GotoKeeps(s, p, to);
  }

  lemma OnlyHeld(to: Pc, d: Inode)
    requires Holds(to, d) || to.Finished? || to.Failed?
    ensures !Contender(to) && !to.Crashed?
    ensures (forall e: Inode :: Holds(to, e) ==> e == d) && (forall e: Inode :: !Seen(to, e))
  {
  }

  lemma HolderMarks(s: State, p: Process, d: Inode, file: Owner, to: Pc)
    requires Inv(s) && p in s.pc && Holds(s.pc[p], d) && Holds(to, d) && !s.pc[p].Critical?
    requires file.Named? ==> file == Named(p)
    requires to.Critical? ==> file == Named(p)
    ensures Inv(Goto(s.(owner := s.owner[d := file]), p, to))
  {
    hide Inv;
    OwnerFileKeeps(s, p, d, file);
    HolderGoes(s.(owner := s.owner[d := file]), p, d, to);
  }

  lemma EntersKeeps(s: State, t: State, p: Process, d: Inode)
    requires Inv(s) && p in s.pc && Acquires(s, t, p) && Holds(s.pc[p], d)
    requires s.pc[p].Created? || s.pc[p].Identified? || s.pc[p].Writing?
    ensures Inv(t)
  {
    hide Inv;
    HolderGoes(s, p, d, s.pc[p]);
    match s.pc[p] {
      case Created(_) => HolderGoes(s, p, d, Identified(d));
      case Identified(_) =>
        HolderGoes(s, p, d, Leaving(d));
        HolderMarks(s, p, d, Torn, Writing(d));
      case Writing(_) =>
        HolderGoes(s, p, d, Leaving(d));
        HolderMarks(s, p, d, Named(p), Critical(d));
      case _ =>
    }
  }

  lemma LeavesKeeps(s: State, t: State, p: Process, d: Inode)
    requires Inv(s) && p in s.pc && Acquires(s, t, p) && Holds(s.pc[p], d)
    requires !s.pc[p].Created? && !s.pc[p].Identified? && !s.pc[p].Writing?
    ensures Inv(t)
  {
    hide Inv;
    HolderGoes(s, p, d, Failed);
    match s.pc[p] {
      case Critical(_) => HolderGoes(s, p, d, Leaving(d));
      case Leaving(_) => HolderGoes(s, p, d, Unlinking(d));
      case Unlinking(_) => HolderMarks(s, p, d, NoFile, RemovingDir(d));
      case RemovingDir(_) =>
        HolderGoes(s, p, d, Finished);
        if OwnerOf(s, d) == NoFile {
          RmdirKeeps(Goto(s, p, Finished), p, d);
        }
      case _ =>
    }
  }

  lemma ContendsKeeps(s: State, t: State, p: Process)
    requires Inv(s) && p in s.pc && Contends(s, t, p, false)
    ensures Inv(t)
  {
    match s.pc[p] {
      case Taking(seen) => TakesKeeps(s, t, p, seen);
      case Inspecting => LooksKeeps(s, t, p);
      case Reading(_) => LooksKeeps(s, t, p);
      case Missing(_) => LooksKeeps(s, t, p);
      case Rechecking(_, _) => LooksKeeps(s, t, p);
      case Probing(_, _) => ProbesKeeps(s, t, p);
      case Refused(_) => LooksKeeps(s, t, p);
      case Confirming(_) => LooksKeeps(s, t, p);
      case _ =>
    }
  }

  /** Only the dead owner's own directory is ever moved: either it is still at the path, or its quarantine is
      occupied and the rename fails. */
  lemma TakesKeeps(s: State, t: State, p: Process, seen: Inode)
    requires Inv(s) && p in s.pc && s.pc[p] == Taking(seen) && Contends(s, t, p, false)
    ensures Inv(t)
    ensures t.lock != s.lock ==> s.lock == Some(seen) && s.pc[s.maker[seen]] == Crashed(Some(seen))
  {
    hide Inv, MayGo;
    OwnerIsDead(s, p, seen);
    if s.lock.Some? && !Occupied(s, seen) {
      QuarantineKeeps(s, p, seen);
      var u := s.(lock := None, quarantine := s.quarantine[seen := seen]);
      TakerMayGo(u, p, Confirming(seen));
      GotoKeeps(u, p, Confirming(seen));
    } else {
      TakerMayGo(s, p, Refused(seen));
      GotoKeeps(s, p, Refused(seen));
    }
  }

  lemma OwnerIsDead(s: State, p: Process, seen: Inode)
    requires Inv(s) && p in s.pc && s.pc[p] == Taking(seen)
    ensures seen in s.maker && s.maker[seen] in s.pc && s.pc[s.maker[seen]] == Crashed(Some(seen))
    ensures s.lock.Some? && !Occupied(s, seen) ==> s.lock == Some(seen)
  {
    hide Bounded, SeenBounded, HoldersHold, OwnersMade, CriticalOwns, MakesOne;
    assert Believes(s.pc[p], s.pc, s.lock, s.maker);
    assert OwnerOf(s, seen) == Named(s.maker[seen]);
  }

  lemma TakerMayGo(s: State, p: Process, to: Pc)
    requires p in s.pc && s.pc[p].Taking? && (to.Confirming? || to.Refused?)
    ensures MayGo(s, p, to)
  {
  }

  lemma LooksMayGo(s: State, t: State, p: Process)
    requires Inv(s) && p in s.pc && Contends(s, t, p, false) && !s.pc[p].Taking? && !s.pc[p].Probing?
    ensures p in t.pc && t == Goto(s, p, t.pc[p]) && MayGo(s, p, t.pc[p])
  {
    hide Inv, ReadsDead, Occupied;
    OnlyLooks(s, t, p);
    LooksSoundly(s, t, p);
  }

  lemma OnlyLooks(s: State, t: State, p: Process)
    requires p in s.pc && Contends(s, t, p, false) && !s.pc[p].Taking? && !s.pc[p].Probing?
    ensures p in t.pc && t == Goto(s, p, t.pc[p]) && !s.pc[p].Crashed?
    ensures Contender(s.pc[p]) && (Contender(t.pc[p]) || t.pc[p].Failed?)
  {
    hide ReadsDead, Occupied;
  }

  /** What a look tells is still true, or no longer matters because the directory has changed. */
  lemma LooksSoundly(s: State, t: State, p: Process)
    requires Inv(s) && p in s.pc && Contends(s, t, p, false) && !s.pc[p].Taking? && !s.pc[p].Probing?
    requires p in t.pc && t == Goto(s, p, t.pc[p])
    ensures Believes(t.pc[p], s.pc, s.lock, s.maker) && forall k: Inode :: Seen(t.pc[p], k) ==> k < s.next
  {
    hide CrashesStay, CriticalOwns, MakesOne, HoldersHold, ReadsDead, Occupied;
    forall k: Inode | Seen(t.pc[p], k) ensures k < s.next {
      assert Seen(s.pc[p], k) || s.lock == Some(k);
    }
    assert Believes(s.pc[p], s.pc, s.lock, s.maker);
  }

  lemma LooksKeeps(s: State, t: State, p: Process)
    requires Inv(s) && p in s.pc && Contends(s, t, p, false) && !s.pc[p].Taking? && !s.pc[p].Probing?
    ensures Inv(t)
  {
    hide Inv, MayGo, Contends;
    LooksMayGo(s, t, p);
    GotoKeeps(s, p, t.pc[p]);
  }

  /** A process id that reads dead belongs to a process that crashed holding the directory it was read from. */
  lemma ProbesKeeps(s: State, t: State, p: Process)
    requires Inv(s) && p in s.pc && Contends(s, t, p, false) && s.pc[p].Probing?
    ensures Inv(t)
  {
    var seen, pid := s.pc[p].seen, s.pc[p].pid;
    hide Inv, ReadsDead;
    if ReadsDead(s, pid, false) {
      DeadHeldIt(s, p, seen, pid);
    }
    assert MayGo(s, p, t.pc[p]);
    hide MayGo, Contends, Believes;
    GotoKeeps(s, p, t.pc[p]);
  }

  lemma DeadHeldIt(s: State, p: Process, seen: Inode, pid: Process)
    requires Inv(s) && p in s.pc && s.pc[p] == Probing(seen, pid) && ReadsDead(s, pid, false)
    ensures Believes(Taking(seen), s.pc, s.lock, s.maker) && seen < s.next
  {
    hide Bounded, HoldersHold, OwnersMade, CriticalOwns;
    assert Believes(s.pc[p], s.pc, s.lock, s.maker) && Seen(s.pc[p], seen);
    var d := s.pc[pid].held.value;
    assert s.pc[pid] == Crashed(Some(d));
    assert s.maker[d] == pid == s.maker[seen];
  }

  // ----- mutual exclusion over every run

  lemma StepKeeps(s: State, t: State)
    requires Inv(s) && Next(s, t, false)
    ensures Inv(t)
  {
    hide Inv, Acquires, Contends, Crash;
    var p :| p in s.pc && (t == Crash(s, p) || Acquires(s, t, p) || Contends(s, t, p, false));
    if Acquires(s, t, p) {
      AcquiresKeeps(s, t, p);
    } else if Contends(s, t, p, false) {
      ContendsKeeps(s, t, p);
    } else {
      CrashKeeps(s, p);
    }
  }

  lemma {:induction false} RunKeeps(run: seq<State>, n: nat)
    requires IsRun(run, false) && n < |run|
    ensures Inv(run[n])
  {
    hide Inv, Next;
    if n == 0 {
      InitialHolds(run[0]);
    } else {
      RunKeeps(run, n - 1);
      StepKeeps(run[n - 1], run[n]);
    }
  }

  /** At most one process is in the lock, and the directory at the path is its own. */
  lemma MutualExclusion(run: seq<State>, n: nat, p: Process, q: Process, d: Inode, e: Inode)
    requires IsRun(run, false) && n < |run| && p in run[n].pc && q in run[n].pc
    requires run[n].pc[p] == Critical(d) && run[n].pc[q] == Critical(e)
    ensures p == q && run[n].lock == Some(d)
  {
    RunKeeps(run, n);
    assert Holds(run[n].pc[p], d) && Holds(run[n].pc[q], e);
  }

  /** No step of another process moves or removes the directory of one that is in the lock, or on its way
      in or out. */
  lemma LiveLockIsNeverMoved(run: seq<State>, n: nat, p: Process, d: Inode)
    requires IsRun(run, false) && n + 1 < |run| && p in run[n].pc && Holds(run[n].pc[p], d)
    requires p in run[n + 1].pc && Holds(run[n + 1].pc[p], d)
    ensures run[n].lock == Some(d) && run[n + 1].lock == Some(d)
  {
    hide Bounded, SeenBounded, OwnersMade, CrashesStay, CriticalOwns, Beliefs, MakesOne, Next;
    RunKeeps(run, n);
    RunKeeps(run, n + 1);
  }

  // ----- a lock abandoned without its owner file blocks for ever

  /** The process that made the directory at the path crashed before its owner file was complete, or after
      it had removed it. */
  predicate Abandoned(s: State, d: Inode) {
    && s.lock == Some(d) && !OwnerOf(s, d).Named?
    && d in s.maker && s.maker[d] in s.pc && s.pc[s.maker[d]] == Crashed(None)
  }

  lemma HolderIsMaker(s: State, d: Inode, p: Process, e: Inode)
    requires Inv(s) && s.lock == Some(d) && p in s.pc && Holds(s.pc[p], e)
    ensures e == d && d in s.maker && s.maker[d] == p
  {
    hide Bounded, SeenBounded, OwnersMade, CrashesStay, CriticalOwns, Beliefs, MakesOne;
    assert s.lock == Some(e);
    assert s.lock.value == e;
  }

  lemma AbandonedAt(s: State, d: Inode)
    requires Abandoned(s, d)
    ensures s.lock == Some(d) && d in s.maker && s.maker[d] in s.pc && s.pc[s.maker[d]] == Crashed(None)
  {
  }

  lemma NobodyHolds(s: State, d: Inode, p: Process, e: Inode)
    requires Inv(s) && Abandoned(s, d) && p in s.pc
    ensures !Holds(s.pc[p], e)
  {
    hide Inv, Abandoned;
    AbandonedAt(s, d);
    if s.pc[p] != Crashed(None) && Holds(s.pc[p], e) {
      HolderIsMaker(s, d, p, e);
    }
  }

  lemma NobodyTakes(s: State, t: State, d: Inode, p: Process)
    requires Inv(s) && Abandoned(s, d) && p in s.pc && s.pc[p].Taking? && Contends(s, t, p, false)
    ensures t == Goto(s, p, Refused(s.pc[p].seen))
  {
    hide Bounded, SeenBounded, OwnersMade, HoldersHold, CriticalOwns, MakesOne;
    var seen := s.pc[p].seen;
    assert Believes(s.pc[p], s.pc, s.lock, s.maker);
    assert s.pc[s.maker[seen]] == Crashed(Some(seen)) && seen != d;
    assert s.quarantine[seen] == seen && OwnerOf(s, seen) == Named(s.maker[seen]);
  }

  lemma AbandonedGoto(s: State, d: Inode, p: Process, to: Pc)
    requires Abandoned(s, d) && p in s.pc && (s.pc[p] == Crashed(None) ==> to == Crashed(None))
    ensures Abandoned(Goto(s, p, to), d)
  {
  }

  lemma AbandonedStays(s: State, t: State, d: Inode)
    requires Inv(s) && Abandoned(s, d) && Next(s, t, false)
    ensures Abandoned(t, d)
  {
    hide Inv, Abandoned, Acquires, Contends, Crash;
    var p :| p in s.pc && (t == Crash(s, p) || Acquires(s, t, p) || Contends(s, t, p, false));
    forall e: Inode ensures !Holds(s.pc[p], e) {
      NobodyHolds(s, d, p, e);
    }
    AbandonedAt(s, d);
    if s.pc[p].Taking? && Contends(s, t, p, false) {
      NobodyTakes(s, t, d, p);
    } else {
      OnlyGoes(s, t, p);
    }
    AbandonedGoto(s, d, p, t.pc[p]);
  }

  /** A process that holds nothing and takes nothing over changes only its own place. */
  lemma OnlyGoes(s: State, t: State, p: Process)
    requires p in s.pc && s.lock.Some? && (forall e: Inode :: !Holds(s.pc[p], e))
    requires t == Crash(s, p) || Acquires(s, t, p) || Contends(s, t, p, false)
    requires Contends(s, t, p, false) ==> !s.pc[p].Taking?
    ensures p in t.pc && t == Goto(s, p, t.pc[p]) && (s.pc[p] == Crashed(None) ==> t.pc[p] == Crashed(None))
  {
    hide OwnerOf, Occupied, ReadsDead;
    NoHolder(s.pc[p]);
  }

  lemma NoHolder(pc: Pc)
    requires forall e: Inode :: !Holds(pc, e)
    ensures !pc.Created? && !pc.Identified? && !pc.Writing? && !pc.Critical? && !pc.Leaving? && !pc.Unlinking?
    ensures !pc.RemovingDir?
  {
    match pc {
      case Created(d) => assert Holds(pc, d);
      case Identified(d) => assert Holds(pc, d);
      case Writing(d) => assert Holds(pc, d);
      case Critical(d) => assert Holds(pc, d);
      case Leaving(d) => assert Holds(pc, d);
      case Unlinking(d) => assert Holds(pc, d);
      case RemovingDir(d) => assert Holds(pc, d);
      case _ =>
    }
  }

  lemma {:induction false} AbandonedBlocks(run: seq<State>, n: nat, m: nat, d: Inode)
    requires IsRun(run, false) && n <= m < |run| && Abandoned(run[n], d)
    ensures Abandoned(run[m], d) && forall p :: p in run[m].pc ==> !run[m].pc[p].Critical?
  {
    hide Inv, Abandoned, Next;
    if n < m {
      AbandonedBlocks(run, n, m - 1, d);
      RunKeeps(run, m - 1);
      AbandonedStays(run[m - 1], run[m], d);
    }
    RunKeeps(run, m);
    forall p | p in run[m].pc ensures !run[m].pc[p].Critical? {
      if run[m].pc[p].Critical? {
        NobodyHolds(run[m], d, p, run[m].pc[p].dir);
      }
    }
  }

  // ----- takeover

  ghost predicate Reachable(s: State, exits: bool) {
    exists run :: |run| > 0 && IsRun(run, exits) && run[|run| - 1] == s
  }

  lemma Onward(s: State, t: State, p: Process, exits: bool)
    requires Reachable(s, exits) && p in s.pc && (t == Crash(s, p) || Acquires(s, t, p) || Contends(s, t, p, exits))
    ensures Reachable(t, exits)
  {
    hide Acquires, Contends, Crash;
    var run :| |run| > 0 && IsRun(run, exits) && run[|run| - 1] == s;
    assert Next(s, t, exits);
    var longer := run + [t];
    forall i | 0 <= i < |longer| - 1 ensures Next(longer[i], longer[i + 1], exits) {
    }
    assert IsRun(longer, exits) && longer[|longer| - 1] == t;
  }

  function Entered(s: State, p: Process): State {
    State(Some(s.next), s.owner[s.next := Named(p)], s.quarantine, s.next + 1, s.pc[p := Critical(s.next)],
          s.maker[s.next := p])
  }

  lemma Enters(s: State, p: Process, exits: bool)
    requires Reachable(s, exits) && p in s.pc && s.pc[p].Begin? && s.lock.None?
    ensures Reachable(Entered(s, p), exits)
  {
    hide Reachable;
    var d := s.next;
    var a := s.(lock := Some(d), owner := s.owner[d := NoFile], next := d + 1, maker := s.maker[d := p],
                pc := s.pc[p := Created(d)]);
    Onward(s, a, p, exits);
    var b := Goto(a, p, Identified(d));
    Onward(a, b, p, exits);
    var c := Goto(b.(owner := b.owner[d := Torn]), p, Writing(d));
    Onward(b, c, p, exits);
    var e := Goto(c.(owner := c.owner[d := Named(p)]), p, Critical(d));
    Onward(c, e, p, exits);
    assert e == Entered(s, p);
  }

  /** A contender looks at a complete lock, up to the liveness check. */
  lemma Looks(s: State, p: Process, d: Inode, exits: bool)
    requires Reachable(s, exits) && p in s.pc && s.pc[p].Begin? && s.lock == Some(d) && OwnerOf(s, d).Named?
    ensures Reachable(Goto(s, p, Probing(d, OwnerOf(s, d).pid)), exits)
  {
    hide Reachable;
    var pid := OwnerOf(s, d).pid;
    var a := Goto(s, p, Inspecting);
    Onward(s, a, p, exits);
    var b := Goto(a, p, Reading(d));
    Onward(a, b, p, exits);
    var c := Goto(b, p, Rechecking(d, pid));
    Onward(b, c, p, exits);
    Onward(c, Goto(c, p, Probing(d, pid)), p, exits);
    assert Goto(c, p, Probing(d, pid)) == Goto(s, p, Probing(d, pid));
  }

  lemma ReachableHolds(s: State)
    requires Reachable(s, false)
    ensures Inv(s)
  {
    hide Inv, IsRun;
    var run :| |run| > 0 && IsRun(run, false) && run[|run| - 1] == s;
    RunKeeps(run, |run| - 1);
  }

  /** No directory that was moved away is at the path again. */
  predicate MovedAway(s: State) {
    forall k | k in s.quarantine :: k < s.next && s.lock != Some(k)
  }

  lemma AcquiresMoves(s: State, t: State, p: Process)
    requires p in s.pc && Acquires(s, t, p)
    ensures t.quarantine == s.quarantine && s.next <= t.next
    ensures t.lock == s.lock || t.lock.None? || t.lock == Some(s.next)
  {
    match s.pc[p]
    case Begin =>
    case Created(_) =>
    case Identified(_) =>
    case Writing(_) =>
    case Critical(_) =>
    case Leaving(_) =>
    case Unlinking(_) =>
    case RemovingDir(_) =>
    case _ =>
  }

  lemma ContendsMoves(s: State, t: State, p: Process)
    requires p in s.pc && Contends(s, t, p, false) && !s.pc[p].Taking?
    ensures t.quarantine == s.quarantine && s.next == t.next && t.lock == s.lock
  {
  }

  lemma TakesMoves(s: State, t: State, p: Process)
    requires Inv(s) && MovedAway(s) && p in s.pc && s.pc[p].Taking? && Contends(s, t, p, false)
    ensures MovedAway(t)
  {
    var seen := s.pc[p].seen;
    TakesKeeps(s, t, p, seen);
    hide OwnerOf, CrashesStay, HoldersHold, OwnersMade, CriticalOwns, Beliefs, MakesOne, Bounded;
    assert Seen(s.pc[p], seen);
  }

  lemma StepMoves(s: State, t: State)
    requires Inv(s) && MovedAway(s) && Next(s, t, false)
    ensures MovedAway(t)
  {
    hide Inv, Acquires, Contends, Crash;
    var p :| p in s.pc && (t == Crash(s, p) || Acquires(s, t, p) || Contends(s, t, p, false));
    if Acquires(s, t, p) {
      AcquiresMoves(s, t, p);
    } else if Contends(s, t, p, false) {
      if s.pc[p].Taking? {
        TakesMoves(s, t, p);
      } else {
        ContendsMoves(s, t, p);
      }
    } else {
      CrashMoves(s, p);
    }
  }

  lemma CrashMoves(s: State, p: Process)
    requires p in s.pc
    ensures Crash(s, p).quarantine == s.quarantine && Crash(s, p).next == s.next && Crash(s, p).lock == s.lock
  {
  }

  lemma {:induction false} RunMoves(run: seq<State>, n: nat)
    requires IsRun(run, false) && n < |run|
    ensures MovedAway(run[n])
  {
    hide Inv, Next;
    if n > 0 {
      RunMoves(run, n - 1);
      RunKeeps(run, n - 1);
      StepMoves(run[n - 1], run[n]);
    }
  }

  lemma ReachableMoves(s: State)
    requires Reachable(s, false)
    ensures MovedAway(s)
  {
    hide IsRun, MovedAway;
    var run :| |run| > 0 && IsRun(run, false) && run[|run| - 1] == s;
    RunMoves(run, |run| - 1);
  }

  lemma CrashedIsNamed(s: State, d: Inode)
    requires Inv(s) && d in s.maker && s.maker[d] in s.pc && s.pc[s.maker[d]] == Crashed(Some(d))
    ensures OwnerOf(s, d) == Named(s.maker[d])
  {
  }

  /** In every reachable state, the lock of a process that crashed holding it can be taken over by any process
      that comes for it. */
  lemma CrashedLockIsTakenOver(s: State, p: Process, d: Inode)
    requires Reachable(s, false) && p in s.pc && s.pc[p].Begin? && s.lock == Some(d)
    requires d in s.maker && s.maker[d] in s.pc && s.pc[s.maker[d]] == Crashed(Some(d))
    ensures exists t :: Reachable(t, false) && p in t.pc && t.pc[p].Critical?
  {
    hide Reachable, Inv, Acquires;
    ReachableHolds(s);
    ReachableMoves(s);
    CrashedIsNamed(s, d);
    var pid := s.maker[d];
    Looks(s, p, d, false);
    var a := Goto(s, p, Probing(d, pid));
    var b := Goto(s, p, Taking(d));
    assert b == Goto(a, p, Taking(d)) && ReadsDead(a, pid, false);
    Onward(a, b, p, false);
    TakesOver(b, p, d);
  }

  lemma TakesOver(s: State, p: Process, d: Inode)
    requires Reachable(s, false) && p in s.pc && s.pc[p] == Taking(d) && s.lock == Some(d) && d !in s.quarantine
    ensures exists t :: Reachable(t, false) && p in t.pc && t.pc[p].Critical?
  {
    hide Reachable, Acquires;
    var c := Goto(s.(lock := None, quarantine := s.quarantine[d := d]), p, Confirming(d));
    Onward(s, c, p, false);
    var e := Goto(c, p, Begin);
    Onward(c, e, p, false);
    Enters(e, p, false);
    assert Entered(e, p).pc[p] == Critical(e.next);
  }

  /** A process that crashes right after it made the directory abandons it. */
  lemma AbandonedIsReachable()
    ensures exists s, d :: Reachable(s, false) && Abandoned(s, d)
  {
    var start := State(None, map[], map[], 0, map[0 := Begin], map[]);
    assert IsRun([start], false) && [start][|[start]| - 1] == start;
    hide Reachable, IsRun;
    var made := State(Some(0), map[0 := NoFile], map[], 1, map[0 := Created(0)], map[0 := 0]);
    assert made == start.(lock := Some(0), owner := start.owner[0 := NoFile], next := 1, maker := start.maker[0 := 0],
                          pc := start.pc[0 := Created(0)]);
    Onward(start, made, 0, false);
    Onward(made, Crash(made, 0), 0, false);
    assert Abandoned(Crash(made, 0), 0);
  }

  // ----- what the liveness check must not confuse

  lemma Exits(s: State, p: Process, d: Inode, exits: bool)
    requires Reachable(s, exits) && p in s.pc && s.pc[p] == Critical(d) && s.lock == Some(d)
    ensures Reachable(s.(lock := None, owner := s.owner[d := NoFile], pc := s.pc[p := Finished]), exits)
  {
    hide Reachable;
    var a := Goto(s, p, Leaving(d));
    Onward(s, a, p, exits);
    var b := Goto(a, p, Unlinking(d));
    Onward(a, b, p, exits);
    var c := Goto(b.(owner := b.owner[d := NoFile]), p, RemovingDir(d));
    Onward(b, c, p, exits);
    var e := Goto(c.(lock := None), p, Finished);
    Onward(c, e, p, exits);
    assert e == s.(lock := None, owner := s.owner[d := NoFile], pc := s.pc[p := Finished]);
  }

  /** A process has looked at the lock of process 0, which has then released it and exited. */
  const OwnerGone := State(None, map[0 := NoFile], map[], 1,
                           map[0 := Finished, 1 := Probing(0, 0), 2 := Begin, 3 := Begin], map[0 := 0])

  lemma OwnerGoes()
    ensures Reachable(OwnerGone, true)
  {
    var start := State(None, map[], map[], 0, map[0 := Begin, 1 := Begin, 2 := Begin, 3 := Begin], map[]);
    assert IsRun([start], true) && [start][|[start]| - 1] == start;
    hide Reachable, IsRun;
    Enters(start, 0, true);
    var a := Entered(start, 0);
    Looks(a, 1, 0, true);
    var b := Goto(a, 1, Probing(0, 0));
    Exits(b, 0, 0, true);
    assert OwnerGone == b.(lock := None, owner := b.owner[0 := NoFile], pc := b.pc[0 := Finished]);
  }

  /** If an owner may also read dead because it has released the lock and exited, exclusion is lost: the
      owner leaves between a contender's second look and its liveness check, a successor enters, the
      contender moves the successor's directory away, and a fourth process enters beside it. */
  lemma CleanExitBreaksExclusion()
    ensures exists s :: Reachable(s, true) && 2 in s.pc && 3 in s.pc && s.pc[2].Critical? && s.pc[3].Critical?
  {
    OwnerGoes();
    hide Reachable, IsRun;
    var e := Goto(OwnerGone, 1, Taking(0));
    Onward(OwnerGone, e, 1, true);
    Enters(e, 2, true);
    var f := Entered(e, 2);
    var g := Goto(f.(lock := None, quarantine := f.quarantine[0 := 1]), 1, Confirming(0));
    Onward(f, g, 1, true);
    Enters(g, 3, true);
    var last := Entered(g, 3);
    assert last.pc[2] == Critical(1) && last.pc[3] == Critical(2);
  }
}
