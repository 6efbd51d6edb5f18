/** When the compact encoding can leave out the list of cleanups: within a hundred tombstones, a completion does not
    change that, and the projected ledger leaves it out exactly when the ledger does. */
module LedgerMatching {
  import opened LaunchContracts
  import opened LedgerState
  import opened LedgerEncoding
  import opened LedgerSize
  import opened LedgerTotals

  predicate AllCleanedUp(retirements: seq<Retirement>, cleanups: seq<Cleanup>) {
    forall i | 0 <= i < |retirements| && retirements[i].cleanupScope.Some? :: CleanedUpBy(cleanups, retirements[i])
  }

  lemma MatchIs(retirements: seq<Retirement>, cleanups: seq<Cleanup>)
    ensures ExactlyMatch(retirements, cleanups)
            <==> |Scoped(retirements)| == |cleanups| && AllCleanedUp(retirements, cleanups)
  {
    hide CleanedUpBy;
    var scoped := Scoped(retirements);
    if ExactlyMatch(retirements, cleanups) {
      forall i | 0 <= i < |retirements| && retirements[i].cleanupScope.Some?
        ensures CleanedUpBy(cleanups, retirements[i])
      {
        assert retirements[i] in scoped;
      }
    }
    if AllCleanedUp(retirements, cleanups) {
      forall i | 0 <= i < |scoped| ensures CleanedUpBy(cleanups, scoped[i]) {
        assert scoped[i] in retirements;
      }
    }
  }

  // ----- one more tombstone, with its cleanup

  ghost predicate Unseen(retirements: seq<Retirement>, cleanups: seq<Cleanup>, id: string) {
    && (forall i :: 0 <= i < |retirements| ==> retirements[i].launchId != id)
    && (forall i :: 0 <= i < |cleanups| ==> cleanups[i].launchId != id)
  }

  function WithCleanup(cleanups: seq<Cleanup>, t: Retirement): seq<Cleanup> {
    if t.cleanupScope.Some? then cleanups + [RetirementCleanup(t)] else cleanups
  }

  lemma {:induction false} ScopedSum(a: seq<Retirement>, b: seq<Retirement>)
    ensures Scoped(a + b) == Scoped(a) + Scoped(b)
  {
    if a == [] {
      assert a + b == b;
    } else {
      assert (a + b)[1..] == a[1..] + b;
      ScopedSum(a[1..], b);
    }
  }

  lemma {:induction false} FoundInFront(cleanups: seq<Cleanup>, c: Cleanup, id: string)
    requires c.launchId != id
    ensures FindCleanup(cleanups + [c], id)
            == if FindCleanup(cleanups, id) < |cleanups| then FindCleanup(cleanups, id) else |cleanups| + 1
  {
    if cleanups == [] {
      assert (cleanups + [c])[1..] == [];
    } else {
      assert (cleanups + [c])[1..] == cleanups[1..] + [c];
      FoundInFront(cleanups[1..], c, id);
    }
  }

  lemma CleanedUpAlike(cleanups: seq<Cleanup>, c: Cleanup, t: Retirement)
    requires c.launchId != t.launchId
    ensures CleanedUpBy(cleanups + [c], t) <==> CleanedUpBy(cleanups, t)
  {
    FoundInFront(cleanups, c, t.launchId);
  }

  lemma OwnCleanup(cleanups: seq<Cleanup>, t: Retirement)
    requires t.cleanupScope.Some? && forall i :: 0 <= i < |cleanups| ==> cleanups[i].launchId != t.launchId
    ensures CleanedUpBy(cleanups + [RetirementCleanup(t)], t)
  {
    var all := cleanups + [RetirementCleanup(t)];
    assert all[|cleanups|].launchId == t.launchId;
    assert FindCleanup(all, t.launchId) == |cleanups|;
  }

  lemma OneMoreMatches(retirements: seq<Retirement>, cleanups: seq<Cleanup>, t: Retirement)
    requires Unseen(retirements, cleanups, t.launchId)
    ensures ExactlyMatch(retirements + [t], WithCleanup(cleanups, t)) <==> ExactlyMatch(retirements, cleanups)
  {
    hide ExactlyMatch, CleanedUpBy, RetirementCleanup;
    var all, listed := retirements + [t], WithCleanup(cleanups, t);
    MatchIs(retirements, cleanups);
    MatchIs(all, listed);
    ScopedSum(retirements, [t]);
    assert |Scoped([t])| == if t.cleanupScope.Some? then 1 else 0;
    OthersCleanedUp(retirements, cleanups, t);
    forall i | 0 <= i < |all| ensures all[i] == if i < |retirements| then retirements[i] else t {
    }
    if t.cleanupScope.Some? {
      OwnCleanup(cleanups, t);
    }
    AllBut(retirements, t, listed);
  }

  lemma AllBut(retirements: seq<Retirement>, t: Retirement, cleanups: seq<Cleanup>)
    ensures AllCleanedUp(retirements + [t], cleanups)
            <==> AllCleanedUp(retirements, cleanups) && (t.cleanupScope.Some? ==> CleanedUpBy(cleanups, t))
  {
    hide CleanedUpBy;
    var all := retirements + [t];
    assert all[|retirements|] == t;
    forall i | 0 <= i < |retirements| ensures all[i] == retirements[i] {
    }
  }

  lemma OthersCleanedUp(retirements: seq<Retirement>, cleanups: seq<Cleanup>, t: Retirement)
    requires Unseen(retirements, cleanups, t.launchId)
    ensures AllCleanedUp(retirements, WithCleanup(cleanups, t)) <==> AllCleanedUp(retirements, cleanups)
  {
    hide CleanedUpBy;
    if t.cleanupScope.Some? {
      forall i | 0 <= i < |retirements|
        ensures CleanedUpBy(WithCleanup(cleanups, t), retirements[i]) <==> CleanedUpBy(cleanups, retirements[i])
      {
        CleanedUpAlike(cleanups, RetirementCleanup(t), retirements[i]);
      }
    }
  }

  // ----- all the completions to come

  ghost predicate NoneRetired(retirements: seq<Retirement>, records: seq<Record>) {
    forall i, j :: 0 <= i < |retirements| && 0 <= j < |records| ==> retirements[i].launchId != records[j].id
  }

  lemma RetiredRest(retirements: seq<Retirement>, records: seq<Record>, t: Retirement)
    requires records != [] && t.launchId == records[0].id && OneRecordEach(records) && NoneRetired(retirements, records)
    ensures NoneRetired(retirements, records[1..]) && NoneRetired(retirements + [t], records[1..])
  {
    forall i, j | 0 <= i < |retirements| + 1 && 0 <= j < |records| - 1
      ensures (retirements + [t])[i].launchId != records[1..][j].id
    {
      assert records[1..][j] == records[j + 1];
    }
  }

  lemma FirstUnseen(retirements: seq<Retirement>, cleanups: seq<Cleanup>, records: seq<Record>)
    requires records != [] && NoneAdded(cleanups, records) && NoneRetired(retirements, records)
    ensures Unseen(retirements, cleanups, records[0].id)
    ensures NoneAdded(cleanups, records[1..]) && NoneRetired(retirements, records[1..])
  {
  }

  lemma {:induction false} CompletionsMatch(
      retirements: seq<Retirement>, cleanups: seq<Cleanup>, records: seq<Record>)
    requires OneRecordEach(records) && NoneAdded(cleanups, records) && NoneRetired(retirements, records)
    ensures ExactlyMatch(retirements + Completions(records), cleanups + CompletionCleanups(Completions(records)))
            <==> ExactlyMatch(retirements, cleanups)
    decreases |records|
  {
    hide OneRecordEach, NoneAdded, NoneRetired, Completions, CompletionCleanups, ExactlyMatch, Completion,
         RetirementCleanup, Unseen, ToRetire;
    if records == [] {
      NothingToComplete(retirements, cleanups);
    } else {
      CompletionsFirst(records);
      AddedRest(cleanups, records);
      FirstUnseen(retirements, cleanups, records);
      if ToRetire(records[0]) {
        var t := Completion(records[0]);
        CompletionIds(records[0]);
        var c := RetirementCleanup(t);
        RetiredRest(retirements, records, t);
        AddedFirst(cleanups, records, c);
        OneMoreMatches(retirements, cleanups, t);
        CompletionsMatch(retirements + [t], cleanups + [c], records[1..]);
        Shifted(retirements, t, Completions(records[1..]));
        Shifted(cleanups, c, CompletionCleanups(Completions(records[1..])));
      } else {
        CompletionsMatch(retirements, cleanups, records[1..]);
      }
    }
  }

  lemma CompletionIds(r: Record)
    requires ToRetire(r)
    ensures Completion(r).launchId == r.id && RetirementCleanup(Completion(r)).launchId == r.id
  {
  }

  lemma NothingToComplete(retirements: seq<Retirement>, cleanups: seq<Cleanup>)
    ensures retirements + Completions([]) == retirements
    ensures cleanups + CompletionCleanups(Completions([])) == cleanups
  {
  }

  // ----- in any order

  lemma {:induction false} InsertSame(t: Retirement, sorted: seq<Retirement>)
    ensures multiset(Insert(t, sorted)) == multiset([t] + sorted)
    ensures |Scoped(Insert(t, sorted))| == |Scoped([t] + sorted)|
  {
    hide LargerFirst;
    if sorted != [] && LargerFirst(sorted[0], t) {
      InsertSame(t, sorted[1..]);
      assert sorted == [sorted[0]] + sorted[1..];
      assert Insert(t, sorted)[1..] == Insert(t, sorted[1..]);
      assert ([t] + sorted)[1..] == sorted && ([t] + sorted[1..])[1..] == sorted[1..];
    }
  }

  lemma {:induction false} SortSame(retirements: seq<Retirement>)
    ensures multiset(BySize(retirements)) == multiset(retirements)
    ensures |Scoped(BySize(retirements))| == |Scoped(retirements)|
  {
    hide Insert;
    if retirements != [] {
      SortSame(retirements[1..]);
      InsertSame(retirements[0], BySize(retirements[1..]));
      assert retirements == [retirements[0]] + retirements[1..];
      var sorted := BySize(retirements[1..]);
      assert ([retirements[0]] + sorted)[1..] == sorted;
    }
  }

  lemma SortedMatches(retirements: seq<Retirement>, cleanups: seq<Cleanup>)
    ensures ExactlyMatch(BySize(retirements), cleanups) <==> ExactlyMatch(retirements, cleanups)
  {
    hide BySize, ExactlyMatch, CleanedUpBy, Scoped;
    var sorted := BySize(retirements);
    SortSame(retirements);
    MatchIs(retirements, cleanups);
    MatchIs(sorted, cleanups);
    if AllCleanedUp(retirements, cleanups) { SameCleanedUp(retirements, sorted, cleanups); }
    if AllCleanedUp(sorted, cleanups) { SameCleanedUp(sorted, retirements, cleanups); }
  }

  lemma SameCleanedUp(a: seq<Retirement>, b: seq<Retirement>, cleanups: seq<Cleanup>)
    requires multiset(a) == multiset(b) && AllCleanedUp(a, cleanups)
    ensures AllCleanedUp(b, cleanups)
  {
    hide CleanedUpBy;
    forall i | 0 <= i < |b| && b[i].cleanupScope.Some? ensures CleanedUpBy(cleanups, b[i]) {
      assert b[i] in multiset(b);
      assert b[i] in a;
    }
  }

  // ----- the ledger and its projection

  lemma NoneRetiredYet(l: Ledger)
    requires Disjoint(l.records, l.retirements)
    ensures NoneRetired(l.retirements, l.records)
  {
    hide ValidRecord, ValidRetirement;
    forall i, j | 0 <= i < |l.retirements| && 0 <= j < |l.records|
      ensures l.retirements[i].launchId != l.records[j].id
    {
      assert Apart(RecordRow(l.records[j]), RetirementRow(l.retirements[i]));
    }
  }

  lemma SoundDisjoint(l: Ledger)
    requires Sound(l)
    ensures OneRecordEach(l.records) && NoneAdded(l.cleanups, l.records) && NoneRetired(l.retirements, l.records)
    ensures |l.retirements| <= MAX_RETIREMENTS
  {
    hide RecordsSound, CleanupsSound, CleanupsFitRetirements, RetirementsApart, Disjoint, CleanupsFitRecords,
         RetiringCount, OneRecordEach, NoneAdded, NoneRetired;
    SoundIds(l);
    ApartFromRecords(l);
    NoneRetiredYet(l);
  }

  lemma ProjectionMatches(l: Ledger)
    requires Sound(l) && Roomy(l)
    ensures ExactlyMatch(Projected(l).retirements, Projected(l).cleanups)
            <==> ExactlyMatch(l.retirements, l.cleanups)
  {
    hide Sound, OneRecordEach, NoneAdded, NoneRetired, ExactlyMatch, BySize, Completions, CompletionCleanups,
         AddCleanups, ValidRecord;
    SoundDisjoint(l);
    SoundIds(l);
    RecordsBelowProjection(l.records);
    var completions := Completions(l.records);
    SortSum(l.retirements + completions);
    AddedCleanups(l.cleanups, l.records);
    CompletionsMatch(l.retirements, l.cleanups, l.records);
    SortedMatches(l.retirements + completions, l.cleanups + CompletionCleanups(completions));
  }

  lemma RecordIsUnseen(l: Ledger, k: nat)
    requires k < |l.records| && NoneAdded(l.cleanups, l.records) && NoneRetired(l.retirements, l.records)
    ensures Unseen(l.retirements, l.cleanups, l.records[k].id)
  {
  }
}
