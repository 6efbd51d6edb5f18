/** Where the compact encoding falls short within a hundred tombstones: without the list of cleanups a tombstone can be
    shorter than its record, so a ledger can outgrow the limit although it fits now and with all its retirements
    completed. */
module LedgerCompactShortfall {
  import opened Common
  import opened LaunchContracts
  import opened LedgerState
  import opened LedgerEncoding
  import opened LedgerSize
  import opened LedgerTotals
  import opened LedgerLargest
  import opened LedgerMatching
  import opened LedgerMargin
  import opened LedgerCapacity
  import opened LedgerShortfall

  // ----- the ledger

  const OTHERS := 991

  function Fifty(): (s: string)
    ensures |s| == 50 && SafeId(s)
  {
    seq(50, _ => 'x')
  }

  /** Its tombstone is longer than the record: the provider is written twice. */
  function LongProvider(): Record {
    LaunchAt(0).(request := SMALL.(provider := Long()))
  }

  /** Its tombstone is shorter than the record: the agents are not written. */
  function LongAgents(): Record {
    LaunchAt(1).(providerAgentId := Some(Long()), agentId := Some(Long()))
  }

  function Filler(): Record {
    LaunchAt(2).(request := SMALL.(mode := Fifty()))
  }

  function Tight(): Ledger {
    Ledger([LongProvider(), LongAgents(), Filler()] + Launches(3, OTHERS), [], [])
  }

  function RecordAt(i: nat): Record {
    if i == 0 then LongProvider() else if i == 1 then LongAgents() else if i == 2 then Filler() else LaunchAt(i)
  }

  lemma TightRecords()
    ensures |Tight().records| == OTHERS + 3 && Tight().retirements == [] && Tight().cleanups == []
    ensures forall i :: 0 <= i < OTHERS + 3 ==> Tight().records[i] == RecordAt(i)
  {
    hide LaunchAt, LongProvider, LongAgents, Filler;
  }

  // ----- it is sound

  lemma FrontIsValid()
    ensures ValidRecord(LongProvider()) && ValidRecord(LongAgents()) && ValidRecord(Filler())
  {
    assert SafeId("p") && SafeId("t") && SafeId("f") && SafeId("m") && SafeId("v");
    hide SafeId, Named, LaunchId, AttemptId, SafeHash;
    LaunchIsValid(0);
    LaunchIsValid(1);
    LaunchIsValid(2);
  }

  lemma FrontRows()
    ensures RecordRow(LongProvider()) == RecordRow(LaunchAt(0)) && RecordRow(LongAgents()) == RecordRow(LaunchAt(1))
    ensures RecordRow(Filler()) == RecordRow(LaunchAt(2))
    ensures LongProvider().retirementKeyHash != Some(LongProvider().keyHash)
    ensures LongAgents().retirementKeyHash != Some(LongAgents().keyHash) && Filler().retirementKeyHash.None?
  {
    hide Named;
    KeysApart(0, 0);
    KeysApart(1, 1);
  }

  lemma RecordIsValid(i: nat)
    ensures ValidRecord(RecordAt(i)) && RecordRow(RecordAt(i)) == RecordRow(LaunchAt(i))
    ensures RecordAt(i).retirementKeyHash != Some(RecordAt(i).keyHash)
  {
    hide ValidRecord, RecordRow, LongProvider, LongAgents, Filler, LaunchAt;
    FrontIsValid();
    FrontRows();
    LaunchIsValid(i);
  }

  lemma TightRecordsSound()
    ensures RecordsSound(Tight().records)
  {
    hide ValidRecord, RecordRow, Within, Apart, LaunchAt, RecordAt, Tight;
    TightRecords();
    var records := Tight().records;
    forall i | 0 <= i < |records|
      ensures ValidRecord(records[i]) && records[i].retirementKeyHash != Some(records[i].keyHash)
    {
      RecordIsValid(i);
    }
    forall i, j | 0 <= i < j < |records| ensures Apart(RecordRow(records[i]), RecordRow(records[j])) {
      RecordIsValid(i);
      RecordIsValid(j);
      RowsWithin(i);
      RowsWithin(j);
      WithinApart(RecordRow(records[i]), i, RecordRow(records[j]), j);
    }
  }

  lemma FrontRetires()
    ensures ToRetire(LongProvider()) && ToRetire(LongAgents()) && !ToRetire(Filler())
    ensures LongProvider().updatedAt == LongAgents().updatedAt == AT && !Filler().state.Retiring?
  {
    hide Named;
  }

  lemma WithHead(r: Record, rest: seq<Record>)
    ensures RetiringCount([r] + rest) == (if r.state.Retiring? then 1 else 0) + RetiringCount(rest)
    ensures Kept([r] + rest) == (if ToRetire(r) then [] else [r]) + Kept(rest)
    ensures Completions([r] + rest) == (if ToRetire(r) then [Completion(r)] else []) + Completions(rest)
    ensures RecordsBytes([r] + rest) == RecordBytes(r) + 1 + RecordsBytes(rest)
  {
    hide RecordBytes, Completion;
    assert ([r] + rest)[1..] == rest;
  }

  lemma Three(a: Record, b: Record, c: Record, rest: seq<Record>)
    requires ToRetire(a) && ToRetire(b) && !ToRetire(c) && !c.state.Retiring?
    requires RetiringCount(rest) == 0 && Completions(rest) == [] && Kept(rest) == rest
    ensures var all := [a, b, c] + rest;
            && RetiringCount(all) == 2 && Kept(all) == [c] + rest
            && Completions(all) == [Completion(a), Completion(b)]
            && RecordsBytes(all) == RecordBytes(a) + RecordBytes(b) + RecordBytes(c) + 3 + RecordsBytes(rest)
            && RecordsBytes([c] + rest) == RecordBytes(c) + 1 + RecordsBytes(rest)
  {
    hide RecordBytes, RecordsBytes, Completion, Completions, Kept, RetiringCount;
    WithHead(c, rest);
    WithHead(b, [c] + rest);
    WithHead(a, [b] + ([c] + rest));
    assert [a, b, c] + rest == [a] + ([b] + ([c] + rest));
  }

  lemma TightRetires()
    ensures var l := Tight();
            && RetiringCount(l.records) == 2 && Kept(l.records) == [Filler()] + Launches(3, OTHERS)
            && Completions(l.records) == [Completion(LongProvider()), Completion(LongAgents())]
            && RecordsBytes(l.records) == RecordBytes(LongProvider()) + RecordBytes(LongAgents())
                                          + RecordBytes(Filler()) + 3 + RecordsBytes(Launches(3, OTHERS))
            && KeptBytes(l.records) == RecordBytes(Filler()) + 1 + RecordsBytes(Launches(3, OTHERS))
  {
    hide RecordBytes, Completion, Completions, Kept, LaunchAt, Launches, LongProvider, LongAgents, Filler,
         RetiringCount, RecordsBytes, ToRetire;
    FrontRetires();
    NoneRetire(3, OTHERS);
    Three(LongProvider(), LongAgents(), Filler(), Launches(3, OTHERS));
    assert Tight().records == [LongProvider(), LongAgents(), Filler()] + Launches(3, OTHERS);
  }

  lemma OthersFailed(i: nat)
    requires i >= 2
    ensures !LaunchAt(i).state.Retiring?
  {
    hide Named;
  }

  lemma TightTimes()
    ensures TimesAtLeast(Tight(), 24)
  {
    hide LaunchAt, LongProvider, LongAgents, Filler, Tight, ToRetire;
    TightRecords();
    FrontRetires();
    forall i | 3 <= i < OTHERS + 3 ensures !LaunchAt(i).state.Retiring? {
      OthersFailed(i);
    }
  }

  lemma TightIsSound()
    ensures Sound(Tight()) && Roomy(Tight()) && TimesAtLeast(Tight(), 24)
  {
    hide Sound, TimesAtLeast, RecordsSound, RetirementsSound, Disjoint, RetiringCount, LaunchAt, Tight, Completions,
         Kept, LongProvider, LongAgents, Filler, Completion, KeptBytes, RecordBytes, RecordsBytes, RecordAt, Launches;
    TightRecords();
    TightRecordsSound();
    TightRetires();
    TightTimes();
    NoRetirements(Tight().records);
    SoundWithoutCleanups(Tight());
  }

  lemma NoRetirements(records: seq<Record>)
    ensures RetirementsSound([]) && Disjoint(records, [])
  {
  }

  // ----- its size

  lemma ProviderSize()
    ensures RecordBytes(LongProvider()) == 670
  {
    hide Named;
  }

  function EntryFor(scope: string): (t: Retirement)
    ensures t.cleanupScope == Some(scope)
  {
    RetirementEntry(LongProvider(), AT, Some(scope))
  }

  lemma ProviderEntrySize(scope: string)
    requires |scope| == 16
    ensures RetirementBytes(EntryFor(scope)) == 767
  {
    hide Named;
  }

  lemma AgentsSize()
    ensures RecordBytes(LongAgents()) == 769
  {
    hide Named;
  }

  lemma AgentsEntrySize()
    ensures ToRetire(LongAgents()) && RetirementBytes(Completion(LongAgents())) == 569
  {
    hide Named;
  }

  lemma OwnedSize()
    ensures RecordBytes(Cancelled(LongAgents(), AT)) == 700
  {
    hide Named;
  }

  lemma FillerSize()
    ensures RecordBytes(Filler()) == 560
  {
    hide Named;
  }

  lemma NoCleanups(l: Ledger)
    requires l.retirements == [] && l.cleanups == []
    ensures !Names(l, true) && ListBytes(l, true) == 0 && ReadsAsCompact(Encode(l, false))
  {
  }

  lemma UnlistedSizes()
    ensures Unlisted(994, 999_939, 0, 0, 0) == 999_971
    ensures Unlisted(992, 998_498, 2, 1338, 2) == 999_884
  {
  }

  lemma TightBytes()
    ensures var l := Tight();
            && |l.records| == 994 && RecordsBytes(l.records) == 999_939
            && |Kept(l.records)| == 992 && KeptBytes(l.records) == 998_498
  {
    hide LaunchAt, LongProvider, LongAgents, Filler, Tight, ToRetire, RecordBytes, RecordsBytes, KeptBytes, Kept,
         Completions, RetiringCount, RecordAt, Completion;
    TightRecords();
    TightRetires();
    ProviderSize();
    AgentsSize();
    FillerSize();
    LaunchesSize(3, OTHERS);
  }

  lemma TightSize()
    ensures Size(Tight(), true) == 999_971
  {
    hide LaunchAt, LongProvider, LongAgents, Filler, Tight, ToRetire, RecordsBytes, KeptBytes, Kept, Unlisted, Size,
         ListBytes, Names, RecordAt;
    TightRecords();
    TightBytes();
    NoCleanups(Tight());
    SizeParts(Tight(), true);
    UnlistedSizes();
  }

  lemma CandidatesSize()
    ensures var l := Tight();
            && Candidates(l) == [Completion(LongProvider()), Completion(LongAgents())]
            && Largest(Candidates(l)) == 1338 && Duties(l) == 2
  {
    hide LaunchAt, LongProvider, LongAgents, Filler, Tight, ToRetire, Completions, Kept, RecordAt, Completion,
         RetirementBytes, RetirementsBytes, Largest, RetiringCount, KeptBytes, RecordsBytes, RecordBytes, Launches,
         CleanupsBytes, CompletionCleanups, RetirementCleanup, CleanupBytes;
    FrontRetires();
    TightRecords();
    TightRetires();
    ProviderCompletionSize();
    AgentsEntrySize();
    PairSize(Completion(LongProvider()), Completion(LongAgents()));
    LargestIsAll(Candidates(Tight()));
  }

  lemma ProviderCompletionSize()
    ensures ToRetire(LongProvider()) && RetirementBytes(Completion(LongProvider())) == 767
  {
    hide RetirementBytes, Named;
    ProviderEntrySize(PLACEHOLDER_SCOPE);
    assert Completion(LongProvider()) == EntryFor(PLACEHOLDER_SCOPE);
  }

  lemma TightPeak()
    ensures Peak(Tight(), true) == 999_884
  {
    hide LaunchAt, LongProvider, LongAgents, Filler, Tight, ToRetire, RecordsBytes, KeptBytes, Kept, Unlisted, Size,
         ListBytes, ExactlyMatch, RecordAt, Candidates, Largest, Projected, Sound, Roomy, UnlistedBytes, Duties,
         TimesAtLeast, Completion;
    TightIsSound();
    TightRecords();
    TightBytes();
    CandidatesSize();
    NoCleanups(Tight());
    ProjectionMatches(Tight());
    ProjectedParts(Tight());
    ListAlike(Projected(Tight()), true);
    SizeParts(Projected(Tight()), true);
    UnlistedSizes();
  }

  // ----- neither retirement can be ended

  lemma EntryForIsValid(scope: string)
    requires Base64Url(scope, 16)
    ensures ValidRetirement(EntryFor(scope))
  {
    hide TaggedUuid, Base64Url, SafeId, Named;
    FrontIsValid();
    LaunchIsValid(0);
    TombstoneIsValid(0);
  }

  lemma CompletionIsPossible(scope: string)
    requires Base64Url(scope, 16)
    ensures CompleteRetirement(Tight(), LongProvider().id, AT, Some(scope)).Write?
    ensures FindRecord(Tight().records, LongProvider().id) == 0
  {
    hide ValidRecord, ValidRetirement, Named, LongProvider, LaunchAt, Tight, LongAgents, Filler;
    TightRecords();
    FrontRetires();
    EntryForIsValid(scope);
  }

  lemma OwnedIsValid()
    ensures ValidRecord(Cancelled(LongAgents(), AT))
  {
    hide TaggedUuid, Base64Url, SafeId, Named;
    FrontIsValid();
  }

  lemma CancellationIsPossible()
    ensures LongAgents().retirementKeyHash.Some?
    ensures CancelRetirement(Tight(), LongAgents().id, LongAgents().retirementKeyHash.value, AT).Write?
    ensures FindRecord(Tight().records, LongAgents().id) == 1
  {
    hide ValidRecord, Named, LongProvider, LaunchAt, Tight, LongAgents, Filler;
    TightRecords();
    FrontRetires();
    OwnedIsValid();
    IdsDiffer();
  }

  lemma IdsDiffer()
    ensures LongProvider().id != LongAgents().id
  {
    hide Named;
    if Named("launch:", 32, 0) == Named("launch:", 32, 1) { NamedApart("launch:", 32, 0, 1); }
  }

  lemma TightFits()
    ensures Sound(Tight()) && Roomy(Tight()) && TimesAtLeast(Tight(), 24) && Fits(Tight(), true)
  {
    hide Sound, Roomy, TimesAtLeast, Size, Peak, Tight;
    TightIsSound();
    TightSize();
    TightPeak();
  }

  lemma ProviderMoves(scope: string)
    requires |scope| == 16
    ensures 0 < |Tight().records| && Leaving(Tight(), 0) == 671 && Arriving(Tight(), EntryFor(scope), false) == 784
  {
    hide LongProvider, LaunchAt, Tight, LongAgents, Filler, RecordBytes, RetirementBytes, EntryFor, ArrivingCleanup;
    TightRecords();
    ProviderSize();
    ProviderEntrySize(scope);
  }

  lemma CompletionRefused(scope: string)
    requires Base64Url(scope, 16)
    ensures CompleteRetirement(Tight(), LongProvider().id, AT, Some(scope)).Write?
    ensures !Fits(CompleteRetirement(Tight(), LongProvider().id, AT, Some(scope)).next, true)
  {
    hide Sound, Roomy, TimesAtLeast, Tight, LongProvider, CompleteRetirement, Fits, Size, Leaving, Arriving,
         Names, ListBytes, FindRecord, RecordAt, LongAgents, Filler, LaunchAt, Encode;
    CompletionIsPossible(scope);
    TightFits();
    TightSize();
    TightRecords();
    FrontRetires();
    ProviderMoves(scope);
    NoCleanups(Tight());
    RecordsInFront();
    CompletionFitsExactly(Tight(), LongProvider().id, AT, Some(scope), true);
  }

  lemma RecordsInFront()
    ensures RecordAt(0) == LongProvider() && RecordAt(1) == LongAgents()
  {
  }

  lemma AgentsMove()
    ensures 1 < |Tight().records| && ToRetire(Tight().records[1]) && Released(Tight(), 1, false) == 570
    ensures Element(|Kept(Tight().records)| + 1, RecordBytes(Cancelled(Tight().records[1], AT))) == 701
  {
    hide LongProvider, LaunchAt, Tight, LongAgents, Filler, RecordBytes, RetirementBytes, Cancelled, ReleasedCleanup,
         Kept, KeptBytes, RecordsBytes, Completion, ToRetire, Completions, OneAbove, LevelAt, Largest;
    TightRecords();
    TightBytes();
    CandidatesSize();
    AgentsEntrySize();
    OwnedSize();
  }

  lemma CancellationRefused()
    ensures LongAgents().retirementKeyHash.Some?
    ensures var v := CancelRetirement(Tight(), LongAgents().id, LongAgents().retirementKeyHash.value, AT);
            v.Write? && !Fits(v.next, true)
  {
    hide Sound, Roomy, TimesAtLeast, Tight, LongAgents, CancelRetirement, Fits, Peak, Released, Element, Names,
         FindRecord, RecordAt, LongProvider, Filler, LaunchAt, Encode, Kept, RecordBytes, Cancelled, ToRetire,
         ListBytes;
    CancellationIsPossible();
    TightFits();
    TightPeak();
    TightRecords();
    FrontRetires();
    AgentsMove();
    NoCleanups(Tight());
    RecordsInFront();
    CancellationFitsExactly(Tight(), LongAgents().id, LongAgents().retirementKeyHash.value, AT, true);
  }

  /** A sound ledger without tombstones, as an explicit host writes it and a later one reads it in the compact
      encoding, that passed both size checks, with two retirements under way, neither of which can be ended any more:
      the one cannot be completed, whatever scope the provider reports, and the other cannot be cancelled. */
  lemma CompactCanFallShort(scope: string) returns (completion: Op, cancellation: Op)
    requires Base64Url(scope, 16)
    ensures var l := Tight();
            && Sound(l) && Roomy(l) && TimesAtLeast(l, 24) && Fits(l, true) && ReadsAsCompact(Encode(l, false))
            && completion.Complete? && completion.scope == Some(scope) && completion.now == AT
            && Apply(l, completion).Write? && !Fits(Apply(l, completion).next, true)
            && cancellation.Cancel? && cancellation.now == AT
            && Apply(l, cancellation).Write? && !Fits(Apply(l, cancellation).next, true)
  {
    hide Sound, Roomy, TimesAtLeast, Tight, LongAgents, LongProvider, CancelRetirement, CompleteRetirement, Fits,
         Encode;
    CancellationRefused();
    CompletionRefused(scope);
    TightFits();
    TightRecords();
    NoCleanups(Tight());
    completion := Complete(LongProvider().id, AT, Some(scope));
    cancellation := Cancel(LongAgents().id, LongAgents().retirementKeyHash.value, AT);
  }
}
