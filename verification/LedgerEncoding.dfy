/** The ledger file: which document is written for a ledger, and which ledger is read back. */
module LedgerEncoding {
  import opened Common
  import opened LaunchContracts
  import opened LedgerState

  const LAUNCH_SCHEMA_VERSION := 1
  const LEDGER_SCHEMA_VERSION := 2

  /** The parsed JSON; a section that is missing is `None`. */
  datatype Document = Document(
    schemaVersion: nat, records: seq<Record>, retirements: Option<seq<Retirement>>, cleanups: Option<seq<Cleanup>>)

  const EmptyDocument := Document(LEDGER_SCHEMA_VERSION, [], Some([]), Some([]))

  // ----- writing

  function Scoped(retirements: seq<Retirement>): (scoped: seq<Retirement>)
    ensures forall i :: 0 <= i < |scoped| ==> scoped[i].cleanupScope.Some? && scoped[i] in retirements
    ensures forall t :: t in retirements && t.cleanupScope.Some? ==> t in scoped
  {
    if retirements == [] then []
    else if retirements[0].cleanupScope.Some? then [retirements[0]] + Scoped(retirements[1..])
    else Scoped(retirements[1..])
  }

  predicate CleanedUpBy(cleanups: seq<Cleanup>, t: Retirement) {
    var k := FindCleanup(cleanups, t.launchId);
    k < |cleanups| && Matches(cleanups[k], t)
  }

  /** Exactly the scoped tombstones await cleanup, so the list of cleanups can be left out. */
  predicate ExactlyMatch(retirements: seq<Retirement>, cleanups: seq<Cleanup>) {
    var scoped := Scoped(retirements);
    |scoped| == |cleanups| && forall i | 0 <= i < |scoped| :: CleanedUpBy(cleanups, scoped[i])
  }

  function Encode(l: Ledger, compact: bool): Document {
    if l.retirements == [] && l.cleanups == [] then
      Document(LEDGER_SCHEMA_VERSION, l.records, None, None)
    else if compact && ExactlyMatch(l.retirements, l.cleanups) then
      Document(LEDGER_SCHEMA_VERSION, l.records, Some(l.retirements), None)
    else
      Document(LEDGER_SCHEMA_VERSION, l.records, Some(l.retirements), Some(l.cleanups))
  }

  // ----- reading

  predicate Legacy(d: Document) {
    d.schemaVersion == LAUNCH_SCHEMA_VERSION && d.retirements.None?
  }

  predicate SupportedShape(d: Document) {
    || Legacy(d)
    || (d.schemaVersion == LEDGER_SCHEMA_VERSION && (d.retirements.Some? || d.cleanups.None?))
  }

  function DerivedCleanups(scoped: seq<Retirement>): (cleanups: seq<Cleanup>)
    requires forall i :: 0 <= i < |scoped| ==> scoped[i].cleanupScope.Some?
    ensures |cleanups| == |scoped|
    ensures forall i :: 0 <= i < |scoped| ==> cleanups[i] == RetirementCleanup(scoped[i])
  {
    if scoped == [] then [] else [RetirementCleanup(scoped[0])] + DerivedCleanups(scoped[1..])
  }

  function Loaded(d: Document): Ledger {
    var retirements := if d.retirements.Some? then d.retirements.value else [];
    Ledger(d.records, retirements, if d.cleanups.Some? then d.cleanups.value else DerivedCleanups(Scoped(retirements)))
  }

  predicate Readable(d: Document) {
    SupportedShape(d) && Sound(Loaded(d))
  }

  /** Whether the ledger goes on to write the compact form after reading this document. */
  predicate ReadsAsCompact(d: Document) {
    !Legacy(d) && d.cleanups.None?
  }

  /** The in-place migration of a first-version document touches only its version number. */
  function Migrated(d: Document): Document {
    if Legacy(d) then d.(schemaVersion := LEDGER_SCHEMA_VERSION) else d
  }

  // ----- round trip

  ghost predicate SameLedger(a: Ledger, b: Ledger) {
    && a.records == b.records && a.retirements == b.retirements && |a.cleanups| == |b.cleanups|
    && forall c :: c in a.cleanups <==> c in b.cleanups
  }

  function LaunchIds(cleanups: seq<Cleanup>): set<string> {
    set c | c in cleanups :: c.launchId
  }

  predicate OneEach(cleanups: seq<Cleanup>) {
    forall i, j :: 0 <= i < |cleanups| && 0 <= j < |cleanups| && cleanups[i].launchId == cleanups[j].launchId ==> i == j
  }

  predicate OneTombstoneEach(retirements: seq<Retirement>) {
    forall i, j | 0 <= i < |retirements| && 0 <= j < |retirements| ::
      retirements[i].launchId == retirements[j].launchId ==> i == j
  }

  lemma {:induction false} DistinctCount(cleanups: seq<Cleanup>)
    requires OneEach(cleanups)
    ensures |LaunchIds(cleanups)| == |cleanups|
  {
    if cleanups == [] {
      assert LaunchIds(cleanups) == {};
    } else {
      var rest := cleanups[1..];
      DistinctCount(rest);
      assert cleanups == [cleanups[0]] + rest;
      assert LaunchIds(cleanups) == {cleanups[0].launchId} + LaunchIds(rest);
      assert cleanups[0].launchId !in LaunchIds(rest);
    }
  }

  lemma {:induction false} ScopedDistinct(retirements: seq<Retirement>)
    requires OneTombstoneEach(retirements)
    ensures var scoped := Scoped(retirements);
            OneTombstoneEach(scoped)
  {
    if retirements != [] {
      ScopedDistinct(retirements[1..]);
      var rest := Scoped(retirements[1..]);
      forall i | 0 <= i < |rest| ensures rest[i].launchId != retirements[0].launchId {
        var k :| 0 <= k < |retirements[1..]| && retirements[1..][k] == rest[i];
        assert retirements[k + 1] == rest[i];
      }
    }
  }

  lemma DerivedAreCleanups(retirements: seq<Retirement>, cleanups: seq<Cleanup>)
    requires OneTombstoneEach(retirements)
    requires ExactlyMatch(retirements, cleanups)
    ensures var derived := DerivedCleanups(Scoped(retirements));
            && (forall i :: 0 <= i < |derived| ==> derived[i] in cleanups)
            && OneEach(derived)
  {
    var scoped := Scoped(retirements);
    var derived := DerivedCleanups(scoped);
    ScopedDistinct(retirements);
    forall i | 0 <= i < |derived| ensures derived[i] in cleanups && derived[i].launchId == scoped[i].launchId {
      assert CleanedUpBy(cleanups, scoped[i]);
      assert derived[i] == cleanups[FindCleanup(cleanups, scoped[i].launchId)];
    }
  }

  /** When the cleanups are left out, deriving them from the scoped tombstones gives the same cleanups:
      they are all among them, and there are equally many, one for each launch. */
  lemma OmittedCleanupsComeBack(retirements: seq<Retirement>, cleanups: seq<Cleanup>)
    requires OneTombstoneEach(retirements)
    requires OneEach(cleanups)
    requires ExactlyMatch(retirements, cleanups)
    ensures var derived := DerivedCleanups(Scoped(retirements));
            && |derived| == |cleanups|
            && (forall c :: c in derived <==> c in cleanups)
            && OneEach(derived)
  {
    var derived := DerivedCleanups(Scoped(retirements));
    DerivedAreCleanups(retirements, cleanups);
    SameCleanups(derived, cleanups);
  }

  /** Equally many cleanups, one for each launch, are the same cleanups once one list contains the other. */
  lemma SameCleanups(some: seq<Cleanup>, all: seq<Cleanup>)
    requires |some| == |all| && forall i :: 0 <= i < |some| ==> some[i] in all
    requires OneEach(some)
    requires OneEach(all)
    ensures forall c :: c in some <==> c in all
  {
    DistinctCount(some);
    DistinctCount(all);
    forall id | id in LaunchIds(some) ensures id in LaunchIds(all) {
      var c :| c in some && c.launchId == id;
      assert c in all;
    }
    SubsetOfEqualSize(LaunchIds(some), LaunchIds(all));
    forall c | c in all ensures c in some {
      assert c.launchId in LaunchIds(some);
      var d :| d in some && d.launchId == c.launchId;
      OneCleanupEach(all, c, d);
    }
  }

  lemma OneCleanupEach(all: seq<Cleanup>, c: Cleanup, d: Cleanup)
    requires OneEach(all)
    requires c in all && d in all && c.launchId == d.launchId
    ensures c == d
  {
    var i :| 0 <= i < |all| && all[i] == c;
    var j :| 0 <= j < |all| && all[j] == d;
    assert i == j;
  }

  lemma SubsetOfEqualSize<T>(a: set<T>, b: set<T>)
    requires a <= b && |a| == |b|
    ensures a == b
  {
    assert |b - a| == |b| - |a|;
  }

  lemma SoundIsSetwise(l: Ledger, cleanups: seq<Cleanup>)
    requires Sound(l) && |cleanups| == |l.cleanups|
    requires forall c :: c in cleanups ==> c in l.cleanups
    requires OneEach(cleanups)
    ensures Sound(l.(cleanups := cleanups))
  {
    forall i | 0 <= i < |cleanups| ensures exists k :: 0 <= k < |l.cleanups| && l.cleanups[k] == cleanups[i] {
      assert cleanups[i] in l.cleanups;
    }
    forall i, j | 0 <= i < j < |cleanups| ensures cleanups[i].attemptId != cleanups[j].attemptId {
      var a :| 0 <= a < |l.cleanups| && l.cleanups[a] == cleanups[i];
      var b :| 0 <= b < |l.cleanups| && l.cleanups[b] == cleanups[j];
      assert a != b;
    }
    forall i, j | 0 <= i < |cleanups| && 0 <= j < |l.retirements| ensures Compatible(cleanups[i], l.retirements[j]) {
      var a :| 0 <= a < |l.cleanups| && l.cleanups[a] == cleanups[i];
    }
  }

  lemma IdsApart(l: Ledger)
    requires Sound(l)
    ensures OneTombstoneEach(l.retirements)
  {
    forall i, j | 0 <= i < |l.retirements| && 0 <= j < |l.retirements|
                  && l.retirements[i].launchId == l.retirements[j].launchId
      ensures i == j
    {
      assert i < j ==> Apart(RetirementRow(l.retirements[i]), RetirementRow(l.retirements[j]));
      assert j < i ==> Apart(RetirementRow(l.retirements[j]), RetirementRow(l.retirements[i]));
      assert RetirementRow(l.retirements[i]).id == l.retirements[i].launchId;
    }
  }

  /** Whatever is written for a sound ledger, in either encoding, is accepted when it is read and gives
      back the same records, tombstones and cleanups; so no finished cleanup comes back. */
  lemma RoundTrip(l: Ledger, compact: bool)
    requires Sound(l)
    ensures Readable(Encode(l, compact)) && SameLedger(Loaded(Encode(l, compact)), l)
  {
    var d := Encode(l, compact);
    if l.retirements == [] && l.cleanups == [] {
      assert Loaded(d) == l;
    } else if compact && ExactlyMatch(l.retirements, l.cleanups) {
      IdsApart(l);
      OmittedCleanupsComeBack(l.retirements, l.cleanups);
      SoundIsSetwise(l, DerivedCleanups(Scoped(l.retirements)));
      assert Loaded(d) == l.(cleanups := DerivedCleanups(Scoped(l.retirements)));
    } else {
      assert Loaded(d) == l;
    }
  }

  /** A cleanup that has been finished does not come back with the file that says so: in either encoding it reads
      back without a cleanup for that launch. */
  lemma FinishedCleanupStaysFinished(l: Ledger, id: string, keyHash: string, compact: bool)
    requires Sound(l) && CompleteCleanup(l, id, keyHash, compact).Write?
    ensures var again := Loaded(Encode(CompleteCleanup(l, id, keyHash, compact).next, compact));
            && (forall i :: 0 <= i < |again.cleanups| ==> again.cleanups[i].launchId != id)
            && |again.cleanups| == |l.cleanups| - 1
  {
    var next := CompleteCleanup(l, id, keyHash, compact).next;
    CompleteCleanupKeepsSound(l, id, keyHash, compact);
    CleanupsWithout(l.cleanups, FindCleanup(l.cleanups, id));
    hide Sound, Encode, Loaded, Readable;
    RoundTrip(next, compact);
    var again := Loaded(Encode(next, compact));
    forall i | 0 <= i < |again.cleanups| ensures again.cleanups[i].launchId != id {
      assert again.cleanups[i] in next.cleanups;
    }
  }

  /** A first-version document reads the same before and after its migration. */
  lemma MigrationPreserves(d: Document)
    requires Readable(d)
    ensures Readable(Migrated(d)) <==> (Legacy(d) ==> d.cleanups.None?)
    ensures Loaded(Migrated(d)) == Loaded(d)
  {
  }

  /** A first-version document that already names its cleanups is read, but its migration is not. */
  lemma MigrationCanBreak()
    ensures var d := Document(1, [], None, Some([])); Readable(d) && !Readable(Migrated(d))
  {
    var d := Document(1, [], None, Some([]));
    assert RetiringCount([]) == 0;
    assert Readable(d);
    MigrationPreserves(d);
  }
}
