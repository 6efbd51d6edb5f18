/** The ledger object: the collections it updates in place, the file it persists them to, and what it
    does when a write fails. Every operation is proved against its decision in `LedgerState`. */
module LaunchLedger {
  import opened Common
  import opened LaunchContracts
  import opened LedgerState
  import opened LedgerEncoding
  import opened LedgerSize
  import opened LedgerAdmission
  import opened LedgerOrder

  /** The ledger file: none yet, not a document at all, or a document of some size. */
  datatype File = Absent | Corrupt | Stored(document: Document, bytes: nat)

  datatype Ack = Said(answer: Answer) | Persisted | PersistFailed

  const EmptyLedger := Ledger([], [], [])

  ghost predicate Mirrors(file: File, l: Ledger) {
    && file.Stored? && file.bytes <= MAX_LEDGER_BYTES
    && Readable(file.document) && SameEntries(Loaded(file.document), l)
  }

  /** What an operation with this verdict does to a ledger and its file. */
  ghost predicate Carried(v: Verdict, compact: bool, outcome: WriteOutcome, before: Ledger, fileBefore: File,
                          ack: Ack, after: Ledger, fileAfter: File)
  {
    match v
    case Reply(answer) => ack == Said(answer) && after == before && fileAfter == fileBefore
    case Write(next) =>
      if Fits(next, compact) && outcome.Written? then
        ack == Persisted && after == next && fileAfter == Stored(Encode(next, compact), Size(next, compact))
      else
        ack == PersistFailed && SameEntries(after, before) && fileAfter == fileBefore
  }

  lemma Itself(l: Ledger)
    ensures SameEntries(l, l)
  {
  }

  // ----- restoring an entry puts it last, and that changes nothing that matters

  function Moved<T>(s: seq<T>, k: nat): seq<T>
    requires k < |s|
  {
    Without(s, k) + [s[k]]
  }

  lemma MovedIsPermuted<T>(s: seq<T>, k: nat)
    requires k < |s|
    ensures multiset(Moved(s, k)) == multiset(s)
    ensures forall x :: x in Moved(s, k) <==> x in s
  {
    assert s == s[..k] + [s[k]] + s[k + 1..];
  }

  function MovedFrom(n: nat, k: nat, i: nat): nat
    requires k < n && i < n
  {
    if i == n - 1 then k else if i < k then i else i + 1
  }

  lemma MovedIndex<T>(s: seq<T>, k: nat)
    requires k < |s|
    ensures |Moved(s, k)| == |s|
    ensures forall i :: 0 <= i < |s| ==> Moved(s, k)[i] == s[MovedFrom(|s|, k, i)]
  {
  }

  lemma MovedRecordsSound(records: seq<Record>, k: nat)
    requires RecordsSound(records) && k < |records|
    ensures RecordsSound(Moved(records, k))
  {
    hide ValidRecord;
    MovedIndex(records, k);
    var moved := Moved(records, k);
    forall i, j | 0 <= i < j < |moved| ensures Apart(RecordRow(moved[i]), RecordRow(moved[j])) {
      var a, b := MovedFrom(|records|, k, i), MovedFrom(|records|, k, j);
      assert a < b ==> Apart(RecordRow(records[a]), RecordRow(records[b]));
      assert b < a ==> Apart(RecordRow(records[b]), RecordRow(records[a]));
    }
  }

  lemma MovedRecordKeepsSound(l: Ledger, k: nat)
    requires Sound(l) && k < |l.records|
    ensures Sound(l.(records := Moved(l.records, k)))
  {
    hide RecordsSound, RetirementsSound, CleanupsSound, CleanupsFitRetirements, ValidRecord, RecordRow, RetirementRow;
    assert RecordsSound(l.records);
    MovedRecordsSound(l.records, k);
    MovedIndex(l.records, k);
    RetiringCountWithout(l.records, k);
    RetiringCountAppend(Without(l.records, k), l.records[k]);
    var moved := Moved(l.records, k);
    forall i, j | 0 <= i < |moved| && 0 <= j < |l.retirements|
      ensures Apart(RecordRow(moved[i]), RetirementRow(l.retirements[j]))
    {
      assert Apart(RecordRow(l.records[MovedFrom(|moved|, k, i)]), RetirementRow(l.retirements[j]));
    }
  }

  lemma MovedCleanupKeepsSound(l: Ledger, k: nat)
    requires Sound(l) && k < |l.cleanups|
    ensures Sound(l.(cleanups := Moved(l.cleanups, k)))
  {
    hide RecordsSound, RetirementsSound, Disjoint, ValidCleanup, Compatible;
    MovedIndex(l.cleanups, k);
    var moved := Moved(l.cleanups, k);
    forall i, j | 0 <= i < |moved| && 0 <= j < |l.retirements| ensures Compatible(moved[i], l.retirements[j]) {
      assert Compatible(l.cleanups[MovedFrom(|moved|, k, i)], l.retirements[j]);
    }
  }

  lemma RestoredRecord(l: Ledger, k: nat)
    requires Sound(l) && k < |l.records|
    ensures var m := l.(records := Moved(l.records, k));
            Sound(m) && SameEntries(m, l) && forall file :: Mirrors(file, l) ==> Mirrors(file, m)
  {
    hide Sound, Readable, Loaded;
    MovedRecordKeepsSound(l, k);
    MovedIsPermuted(l.records, k);
  }

  lemma RestoredCleanup(l: Ledger, k: nat)
    requires Sound(l) && k < |l.cleanups|
    ensures var m := l.(cleanups := Moved(l.cleanups, k));
            Sound(m) && SameEntries(m, l) && forall file :: Mirrors(file, l) ==> Mirrors(file, m)
  {
    hide Sound, Readable, Loaded;
    MovedCleanupKeepsSound(l, k);
    MovedIsPermuted(l.cleanups, k);
    MovedIndex(l.cleanups, k);
  }

  lemma WriteMirrors(l: Ledger, compact: bool)
    requires Sound(l) && Fits(l, compact)
    ensures Mirrors(Stored(Encode(l, compact), Size(l, compact)), l)
  {
    hide Sound, Encode, Size, Peak, Loaded, SameEntries;
    ReopenedIsSame(l, compact);
  }

  // ----- the projection loop

  lemma ProjectNext(records: seq<Record>, i: nat)
    requires i < |records|
    ensures Kept(records[i..]) == (if ToRetire(records[i]) then [] else [records[i]]) + Kept(records[i + 1..])
    ensures Completions(records[i..])
            == (if ToRetire(records[i]) then [Completion(records[i])] else []) + Completions(records[i + 1..])
  {
    var rest := records[i + 1..];
    var here := records[i..];
    assert here != [] && here[1..] == rest && here[0] == records[i];
    if ToRetire(here[0]) {
      assert Kept(here) == Kept(rest) == [] + Kept(rest);
    } else {
      assert Completions(here) == Completions(rest) == [] + Completions(rest);
    }
  }

  lemma AddFirst(cleanups: seq<Cleanup>, t: Retirement, rest: seq<Retirement>)
    requires t.cleanupScope.Some? && forall i :: 0 <= i < |rest| ==> rest[i].cleanupScope.Some?
    ensures AddCleanups(cleanups, [t] + rest) == AddCleanups(PutCleanup(cleanups, RetirementCleanup(t)), rest)
  {
    assert ([t] + rest)[1..] == rest;
  }

  /** The ledger as it would stand with every retirement under way completed. */
  method Project(l: Ledger) returns (projected: Ledger)
    ensures projected == Projected(l)
  {
    hide Completion, PutCleanup, BySize, First;
    var kept, candidates, cleanups := [], l.retirements, l.cleanups;
    var i := 0;
    while i < |l.records|
      invariant i <= |l.records|
      invariant kept + Kept(l.records[i..]) == Kept(l.records)
      invariant candidates + Completions(l.records[i..]) == l.retirements + Completions(l.records)
      invariant AddCleanups(cleanups, Completions(l.records[i..])) == AddCleanups(l.cleanups, Completions(l.records))
    {
      var r := l.records[i];
      ProjectNext(l.records, i);
      if ToRetire(r) {
        var t := Completion(r);
        var rest := Completions(l.records[i + 1..]);
        AddFirst(cleanups, t, rest);
        assert candidates + ([t] + rest) == (candidates + [t]) + rest;
        candidates, cleanups := candidates + [t], PutCleanup(cleanups, RetirementCleanup(t));
      } else {
        assert kept + ([r] + Kept(l.records[i + 1..])) == (kept + [r]) + Kept(l.records[i + 1..]);
        kept := kept + [r];
      }
      i := i + 1;
    }
    assert l.records[i..] == [] && Kept([]) == [] && Completions([]) == [];
    assert kept + [] == kept && candidates + [] == candidates;
    projected := Ledger(kept, First(BySize(candidates), MAX_RETIREMENTS), cleanups);
  }

  // ----- the object

  /** What `open` finds: a missing file stands for an empty one, an oversized one is refused. */
  function Found(file: File): Option<Document> {
    match file
    case Absent => Some(EmptyDocument)
    case Corrupt => None
    case Stored(document, bytes) => if bytes <= MAX_LEDGER_BYTES then Some(document) else None
  }

  /** `open` itself writes: the empty file, or the version number of a first-version file. */
  predicate OpenWrites(file: File) {
    file.Absent? || (file.Stored? && Legacy(file.document))
  }

  const EMPTY_DOCUMENT_BYTES := DocumentBytes(EmptyDocument)

  class LaunchLedger {
    var records: seq<Record>
    var retirements: seq<Retirement>
    var cleanups: seq<Cleanup>
    var compact: bool
    var isOpen: bool
    var file: File

    function State(): Ledger
      reads this
    {
      Ledger(records, retirements, cleanups)
    }

    ghost predicate Valid()
      reads this
    {
      isOpen ==> Sound(State())
    }

    /** A crash now loses nothing: the file alone reads back as the same entries. */
    ghost predicate Durable()
      reads this
    {
      Mirrors(file, State())
    }

    constructor (found: File)
      ensures Valid() && !isOpen && State() == EmptyLedger && file == found
    {
      records, retirements, cleanups, compact, isOpen, file := [], [], [], false, false, found;
    }

    method Open(outcome: WriteOutcome) returns (ok: bool)
      requires Valid()
      modifies this
      ensures Valid()
      ensures old(isOpen) ==> ok && State() == old(State()) && file == old(file) && compact == old(compact)
      ensures !old(isOpen) ==>
                && (ok <==> && Found(old(file)).Some? && Readable(Found(old(file)).value)
                            && (OpenWrites(old(file)) ==> outcome.Written?))
                && isOpen == ok
      ensures !old(isOpen) && ok ==>
                && State() == Loaded(Found(old(file)).value) && compact == ReadsAsCompact(Found(old(file)).value)
                && (Durable() <==> !(Legacy(Found(old(file)).value) && Found(old(file)).value.cleanups.Some?))
      ensures !ok ==> State() == EmptyLedger && file == old(file)
    {
      if isOpen { return true; }
      records, retirements, cleanups, compact := [], [], [], false;
      var found := Found(file);
      if found.None? { return false; }
      var d := found.value;
      var admitted := Admit(d);
      if !admitted || (OpenWrites(file) && outcome.NotWritten?) { return false; }
      if OpenWrites(file) {
        file := Stored(Migrated(d), if file.Stored? then file.bytes else EMPTY_DOCUMENT_BYTES);
      }
      var l := Loaded(d);
      records, retirements, cleanups := l.records, l.retirements, l.cleanups;
      compact, isOpen := ReadsAsCompact(d), true;
      MigrationPreserves(d);
      return true;
    }

    method Close()
      requires Valid()
      modifies this
      ensures Valid() && !isOpen && file == old(file)
    {
      if isOpen {
        isOpen, records, retirements, cleanups, compact := false, [], [], [], false;
      }
    }

    method Persist(outcome: WriteOutcome) returns (ok: bool)
      modifies this`file
      ensures ok == (Fits(State(), compact) && outcome.Written?)
      ensures file == if ok then Stored(Encode(State(), compact), Size(State(), compact)) else old(file)
    {
      hide Encode, DocumentBytes;
      var l := State();
      var content := Encode(l, compact);
      if DocumentBytes(content) > MAX_LEDGER_BYTES { return false; }
      var projected := Project(l);
      if DocumentBytes(Encode(projected, compact)) > MAX_LEDGER_BYTES || outcome.NotWritten? { return false; }
      file := Stored(content, DocumentBytes(content));
      return true;
    }

    method Reserve(
        id: string, attemptId: string, keyHash: string, signature: string, request: Request, now: Stamp,
        outcome: WriteOutcome)
      returns (ack: Ack)
      requires Valid() && isOpen && Fresh(State(), id, attemptId)
      modifies this`records, this`file
      ensures Valid() && (old(Durable()) || ack.Persisted? ==> Durable())
      ensures Carried(LedgerState.Reserve(old(State()), id, attemptId, keyHash, signature, request, now), compact,
                      outcome, old(State()), old(file), ack, State(), file)
    {
      hide Sound, SameEntries, Mirrors, Fits, Encode, Size, ValidRecord, Fresh;
      hide KeyOnRecord, KeyOnRetirement, PendingCount, FindByKey, FindRetiredByKey;
      ghost var before := State();
      Itself(before);
      var existing := FindByKey(records, keyHash);
      if existing < |records| { return Said(Unchanged(records[existing])); }
      var retired := FindRetiredByKey(retirements, keyHash);
      if retired < |retirements| { return Said(Retired(retirements[retired])); }
      if KeyOnRecord(records, keyHash) || KeyOnRetirement(retirements, keyHash) { return Said(Conflict); }
      if PendingCount(records) >= MAX_PENDING { return Said(Full); }
      if |records| >= MAX_RECORDS { return Said(Full); }
      var record := Record(id, attemptId, keyHash, signature, request, Requested, None, None, None, None, now, now);
      if !ValidRecord(record) { return Said(Failure("invalid launch request record")); }
      ReserveKeepsSound(before, id, attemptId, keyHash, signature, request, now);
      records := records + [record];
      var ok := Persist(outcome);
      if !ok {
        records := records[..|records| - 1];
        assert State() == before;
        return PersistFailed;
      }
      WriteMirrors(State(), compact);
      return Persisted;
    }

    /** A record is replaced and persisted, or put back. */
    method ReplaceRecord(k: nat, next: Record, outcome: WriteOutcome) returns (ack: Ack)
      requires Valid() && isOpen && k < |records| && Sound(State().(records := records[k := next]))
      modifies this`records, this`file
      ensures Valid() && (old(Durable()) || ack.Persisted? ==> Durable())
      ensures Carried(Write(old(State()).(records := old(records)[k := next])), compact, outcome,
                      old(State()), old(file), ack, State(), file)
    {
      hide Sound, SameEntries, Mirrors, Fits, Encode, Size;
      ghost var before := State();
      Itself(before);
      var current := records[k];
      records := records[k := next];
      var ok := Persist(outcome);
      if !ok {
        records := records[k := current];
        assert State() == before;
        return PersistFailed;
      }
      WriteMirrors(State(), compact);
      return Persisted;
    }

    method Transition(id: string, expected: set<State>, patch: Patch, now: Stamp, outcome: WriteOutcome)
      returns (ack: Ack)
      requires Valid() && isOpen
      modifies this`records, this`file
      ensures Valid() && (old(Durable()) || ack.Persisted? ==> Durable())
      ensures Carried(LedgerState.Transition(old(State()), id, expected, patch, now), compact, outcome,
                      old(State()), old(file), ack, State(), file)
    {
      hide Sound, SameEntries, Mirrors, Fits, Encode, Size, ValidRecord, FindRecord, Patched;
      var k := FindRecord(records, id);
      if k == |records| { return Said(Failure("launch record not found")); }
      if records[k].state !in expected { return Said(Unchanged(records[k])); }
      var next := Patched(records[k], patch, now);
      if !ValidRecord(next) { return Said(Failure("invalid launch state transition")); }
      TransitionKeepsSound(State(), id, expected, patch, now);
      ack := ReplaceRecord(k, next, outcome);
    }

    method BeginRetirement(id: string, keyHash: string, now: Stamp, outcome: WriteOutcome) returns (ack: Ack)
      requires Valid() && isOpen
      modifies this`records, this`file
      ensures Valid() && (old(Durable()) || ack.Persisted? ==> Durable())
      ensures Carried(LedgerState.BeginRetirement(old(State()), id, keyHash, now), compact, outcome,
                      old(State()), old(file), ack, State(), file)
    {
      hide Sound, SameEntries, Mirrors, Fits, Encode, Size, ValidRecord, SafeHash;
      hide FindRecord, FindByKey, FindRetiredByKey, KeyOnRetirement, RetiringCount, Later;
      if !SafeHash(keyHash) { return Said(Failure("invalid retirement idempotency hash")); }
      var k := FindRecord(records, id);
      if k == |records| { return Said(Unknown); }
      var current := records[k];
      if current.state.Retiring? { return Said(Unchanged(current)); }
      if !current.state.Owned? { return Said(Failure("only owned launches can be retired")); }
      if |cleanups| + RetiringCount(records) >= MAX_RETIREMENT_CLEANUPS {
        return Said(Failure("retirement_cleanup_full"));
      }
      var activeConflict :=
        exists i | 0 <= i < |records| :: records[i].id != id && records[i].retirementKeyHash == Some(keyHash);
      var completedConflict := KeyOnRetirement(retirements, keyHash);
      var creationConflict := FindByKey(records, keyHash) < |records|
          || FindRetiredByKey(retirements, keyHash) < |retirements|;
      if activeConflict || completedConflict || creationConflict { return Said(Failure("retirement_key_conflict")); }
      var next := current.(state := Retiring, retirementKeyHash := Some(keyHash),
                           updatedAt := Later(current.updatedAt, now));
      if !ValidRecord(next) { return Said(Failure("invalid launch retirement transition")); }
      BeginRetirementKeepsSound(State(), id, keyHash, now);
      ack := ReplaceRecord(k, next, outcome);
    }

    method CancelRetirement(id: string, keyHash: string, now: Stamp, outcome: WriteOutcome) returns (ack: Ack)
      requires Valid() && isOpen
      modifies this`records, this`file
      ensures Valid() && (old(Durable()) || ack.Persisted? ==> Durable())
      ensures Carried(LedgerState.CancelRetirement(old(State()), id, keyHash, now), compact, outcome,
                      old(State()), old(file), ack, State(), file)
    {
      hide Sound, SameEntries, Mirrors, Fits, Encode, Size, ValidRecord, FindRecord, Later;
      var k := FindRecord(records, id);
      if k == |records| || !records[k].state.Retiring? || records[k].retirementKeyHash != Some(keyHash) {
        return Said(Failure("launch retirement fence does not match"));
      }
      var current := records[k];
      var next := current.(state := Owned, retirementKeyHash := None, updatedAt := Later(current.updatedAt, now));
      if !ValidRecord(next) { return Said(Failure("invalid launch retirement rollback")); }
      CancelRetirementKeepsSound(State(), id, keyHash, now);
      ack := ReplaceRecord(k, next, outcome);
    }

    /** Tombstones beyond the hundred newest are dropped, the oldest first. */
    method DropOldest()
      modifies this`retirements
      ensures retirements == Newest(old(retirements))
    {
      while |retirements| > MAX_RETIREMENTS
        invariant Newest(retirements) == Newest(old(retirements))
        decreases |retirements|
      {
        var n := |retirements|;
        assert retirements[1..][n - 1 - MAX_RETIREMENTS..] == retirements[n - MAX_RETIREMENTS..];
        retirements := retirements[1..];
      }
    }

    method CompleteRetirement(id: string, now: Stamp, scope: Option<string>, outcome: WriteOutcome) returns (ack: Ack)
      requires Valid() && isOpen
      modifies this`records, this`retirements, this`cleanups, this`file
      ensures Valid() && (old(Durable()) || ack.Persisted? ==> Durable())
      ensures Carried(LedgerState.CompleteRetirement(old(State()), id, now, scope), compact, outcome,
                      old(State()), old(file), ack, State(), file)
    {
      hide Sound, SameEntries, Mirrors, Fits, Encode, Size, ValidRetirement, FindRecord, Newest;
      hide RetirementCleanup, PutRetirement, PutCleanup, DropCleanup;
      ghost var before := State();
      Itself(before);
      var k := FindRecord(records, id);
      if k == |records| || !records[k].state.Retiring? || records[k].retirementKeyHash.None? {
        return Said(Failure("launch retirement is not fenced"));
      }
      var current := records[k];
      var entry := RetirementEntry(current, now, scope);
      if !ValidRetirement(entry) { return Said(Failure("invalid launch retirement tombstone")); }
      CompleteRetirementKeepsSound(before, id, now, scope);
      RestoredRecord(before, k);
      var previousRetirements, previousCleanups := retirements, cleanups;
      records := Without(records, k);
      retirements := PutRetirement(retirements, entry);
      cleanups := if scope.Some? then PutCleanup(cleanups, RetirementCleanup(entry)) else DropCleanup(cleanups, id);
      DropOldest();
      var ok := Persist(outcome);
      if !ok {
        records, retirements, cleanups := records + [current], previousRetirements, previousCleanups;
        assert records == Moved(before.records, k);
        return PersistFailed;
      }
      WriteMirrors(State(), compact);
      return Persisted;
    }

    method CompleteCleanup(id: string, keyHash: string, outcome: WriteOutcome) returns (ack: Ack)
      requires Valid() && isOpen
      modifies this`retirements, this`cleanups, this`file
      ensures Valid() && (old(Durable()) || ack.Persisted? ==> Durable())
      ensures Carried(LedgerState.CompleteCleanup(old(State()), id, keyHash, compact), compact, outcome,
                      old(State()), old(file), ack, State(), file)
    {
      hide Sound, SameEntries, Mirrors, Fits, Encode, Size, FindCleanup, FindRetirement, Matches;
      ghost var before := State();
      Itself(before);
      var k := FindCleanup(cleanups, id);
      if k == |cleanups| { return Said(Nothing); }
      var current := cleanups[k];
      if current.keyHash != keyHash { return Said(Failure("retirement cleanup fence does not match")); }
      CompleteCleanupKeepsSound(before, id, keyHash, compact);
      RestoredCleanup(before, k);
      var j := FindRetirement(retirements, id);
      var previous := retirements;
      cleanups := Without(cleanups, k);
      if compact && j < |retirements| && Matches(current, retirements[j]) {
        retirements := retirements[j := retirements[j].(cleanupScope := None)];
      }
      var ok := Persist(outcome);
      if !ok {
        cleanups := cleanups + [current];
        if j < |retirements| { retirements := retirements[j := previous[j]]; }
        assert cleanups == Moved(before.cleanups, k) && retirements == previous;
        return PersistFailed;
      }
      WriteMirrors(State(), compact);
      return Persisted;
    }
  }
}
