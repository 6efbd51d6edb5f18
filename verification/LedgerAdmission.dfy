/** The checks `open` makes before it trusts a ledger file, as the loops that make them: together they
    accept exactly the documents whose ledger is sound. */
module LedgerAdmission {
  import opened Common
  import opened LaunchContracts
  import opened LedgerState
  import opened LedgerEncoding

  // ----- the identities of records and tombstones, in one list

  function Rows(records: seq<Record>, retirements: seq<Retirement>): (rows: seq<Row>)
    ensures |rows| == |records| + |retirements|
    ensures forall i :: 0 <= i < |records| ==> rows[i] == RecordRow(records[i])
    ensures forall j :: 0 <= j < |retirements| ==> rows[|records| + j] == RetirementRow(retirements[j])
  {
    seq(|records|, i requires 0 <= i < |records| => RecordRow(records[i]))
    + seq(|retirements|, j requires 0 <= j < |retirements| => RetirementRow(retirements[j]))
  }

  ghost predicate IdentitiesApart(rows: seq<Row>) {
    forall i, j :: 0 <= i < j < |rows| ==> rows[i].id != rows[j].id && rows[i].claims !! rows[j].claims
  }

  ghost predicate AttemptsApart(rows: seq<Row>) {
    forall i, j :: 0 <= i < j < |rows| ==> rows[i].attemptId != rows[j].attemptId
  }

  ghost predicate OwnKeysDiffer(records: seq<Record>, retirements: seq<Retirement>) {
    && (forall i :: 0 <= i < |records| ==> records[i].retirementKeyHash != Some(records[i].keyHash))
    && (forall j :: 0 <= j < |retirements| ==> retirements[j].creationKeyHash != retirements[j].keyHash)
  }

  ghost function Ids(rows: seq<Row>): set<string> {
    set row | row in rows :: row.id
  }

  ghost function Claims(rows: seq<Row>): set<string> {
    set row, key | row in rows && key in row.claims :: key
  }

  lemma AppendRow(rows: seq<Row>, row: Row)
    ensures IdentitiesApart(rows + [row])
            <==> IdentitiesApart(rows) && row.id !in Ids(rows) && row.claims !! Claims(rows)
    ensures Ids(rows + [row]) == Ids(rows) + {row.id}
    ensures Claims(rows + [row]) == Claims(rows) + row.claims
  {
    var all := rows + [row];
    assert all[|rows|] == row && forall i :: 0 <= i < |rows| ==> all[i] == rows[i];
    assert forall x :: x in all <==> x in rows || x == row;
    if IdentitiesApart(all) {
      forall i | 0 <= i < |rows| ensures rows[i].id != row.id && rows[i].claims !! row.claims {
        assert all[i].id != all[|rows|].id && all[i].claims !! all[|rows|].claims;
      }
    }
  }

  lemma RowsPrefix(rows: seq<Row>, n: nat)
    requires n <= |rows|
    ensures IdentitiesApart(rows) ==> IdentitiesApart(rows[..n])
  {
  }

  /** The loop over the records claims their identities and idempotency keys. */
  method ClaimRecords(records: seq<Record>, ghost rows: seq<Row>)
    returns (ok: bool, ids: set<string>, keys: set<string>)
    requires |records| <= |rows| && forall i :: 0 <= i < |records| ==> rows[i] == RecordRow(records[i])
    ensures ok <==> OwnKeysDiffer(records, []) && IdentitiesApart(rows[..|records|])
    ensures ok ==> ids == Ids(rows[..|records|]) && keys == Claims(rows[..|records|])
  {
    hide IdentitiesApart, Ids, Claims;
    ids, keys := {}, {};
    NoRows();
    var i := 0;
    while i < |records|
      invariant i <= |records|
      invariant IdentitiesApart(rows[..i]) && ids == Ids(rows[..i]) && keys == Claims(rows[..i])
      invariant OwnKeysDiffer(records[..i], [])
    {
      var r := records[i];
      assert rows[..i + 1] == rows[..i] + [rows[i]];
      AppendRow(rows[..i], rows[i]);
      RowsPrefix(rows[..|records|], i + 1);
      assert rows[..|records|][..i + 1] == rows[..i + 1];
      if r.id in ids || r.keyHash in keys { return false, ids, keys; }
      ids, keys := ids + {r.id}, keys + {r.keyHash};
      if r.retirementKeyHash.Some? {
        if r.retirementKeyHash.value in keys { return false, ids, keys; }
        keys := keys + {r.retirementKeyHash.value};
      }
      i := i + 1;
    }
    return true, ids, keys;
  }

  lemma NoRows()
    ensures IdentitiesApart([]) && Ids([]) == {} && Claims([]) == {}
  {
  }

  /** The loops over the tombstones go on claiming. */
  method ClaimRetirements(
      retirements: seq<Retirement>, ghost rows: seq<Row>, ghost n: nat, someIds: set<string>, someKeys: set<string>)
    returns (ok: bool)
    requires |rows| == n + |retirements| && forall j :: 0 <= j < |retirements| ==>
              rows[n + j] == RetirementRow(retirements[j])
    requires IdentitiesApart(rows[..n]) && someIds == Ids(rows[..n]) && someKeys == Claims(rows[..n])
    ensures ok <==> OwnKeysDiffer([], retirements) && IdentitiesApart(rows)
  {
    hide IdentitiesApart, Ids, Claims;
    var ids, keys := someIds, someKeys;
    var j := 0;
    while j < |retirements|
      invariant j <= |retirements|
      invariant IdentitiesApart(rows[..n + j]) && ids == Ids(rows[..n + j]) && keys == Claims(rows[..n + j])
      invariant OwnKeysDiffer([], retirements[..j])
    {
      var t := retirements[j];
      assert rows[..n + j + 1] == rows[..n + j] + [rows[n + j]];
      AppendRow(rows[..n + j], rows[n + j]);
      RowsPrefix(rows, n + j + 1);
      if t.launchId in ids || t.creationKeyHash in keys || t.keyHash in keys + {t.creationKeyHash} { return false; }
      ids, keys := ids + {t.launchId}, keys + {t.creationKeyHash, t.keyHash};
      j := j + 1;
    }
    assert rows[..n + j] == rows;
    return true;
  }

  method ClaimIdentities(records: seq<Record>, retirements: seq<Retirement>) returns (ok: bool)
    ensures ok <==> OwnKeysDiffer(records, retirements) && IdentitiesApart(Rows(records, retirements))
  {
    hide IdentitiesApart, Ids, Claims, Rows, RecordRow, RetirementRow;
    ghost var rows := Rows(records, retirements);
    RowsPrefix(rows, |records|);
    var ids, keys;
    ok, ids, keys := ClaimRecords(records, rows);
    if !ok { return; }
    ok := ClaimRetirements(retirements, rows, |records|, ids, keys);
  }

  // ----- who owns an attempt

  ghost predicate CleanupsDistinct(cleanups: seq<Cleanup>) {
    forall i, j :: 0 <= i < j < |cleanups| ==> cleanups[i].launchId != cleanups[j].launchId
  }

  ghost predicate CleanupsMatch(cleanups: seq<Cleanup>, retirements: seq<Retirement>) {
    forall i, j :: 0 <= i < |cleanups| && 0 <= j < |retirements| && cleanups[i].launchId == retirements[j].launchId ==>
      Matches(cleanups[i], retirements[j])
  }

  /** No cleanup is for a recorded launch, or shares its attempt with another launch. */
  ghost predicate CleanupsOwned(rows: seq<Row>, records: seq<Record>, cleanups: seq<Cleanup>) {
    && (forall i, j :: 0 <= i < |cleanups| && 0 <= j < |records| ==> cleanups[i].launchId != records[j].id)
    && (forall i, j :: 0 <= i < |cleanups| && 0 <= j < |rows| && cleanups[i].attemptId == rows[j].attemptId ==>
          cleanups[i].launchId == rows[j].id)
    && (forall i, j :: 0 <= i < |cleanups| && 0 <= j < |cleanups| && cleanups[i].attemptId == cleanups[j].attemptId ==>
          cleanups[i].launchId == cleanups[j].launchId)
  }

  /** The map of attempts lists exactly these rows and cleanups. */
  ghost predicate Owners(owners: map<string, string>, rows: seq<Row>, cleanups: seq<Cleanup>) {
    && (forall i :: 0 <= i < |rows| ==> rows[i].attemptId in owners && owners[rows[i].attemptId] == rows[i].id)
    && (forall i :: 0 <= i < |cleanups| ==>
        cleanups[i].attemptId in owners && owners[cleanups[i].attemptId] == cleanups[i].launchId)
    && (forall a :: a in owners ==>
          || (exists i :: 0 <= i < |rows| && rows[i].attemptId == a && rows[i].id == owners[a])
          || (exists i :: 0 <= i < |cleanups| && cleanups[i].attemptId == a && cleanups[i].launchId == owners[a]))
  }

  function Attempts(records: seq<Record>, retirements: seq<Retirement>): (attempts: seq<(string, string)>)
    ensures |attempts| == |records| + |retirements|
    ensures forall i :: 0 <= i < |attempts| ==>
              attempts[i] == (Rows(records, retirements)[i].attemptId, Rows(records, retirements)[i].id)
  {
    seq(|records|, i requires 0 <= i < |records| => (records[i].attemptId, records[i].id))
    + seq(|retirements|, j requires 0 <= j < |retirements| => (retirements[j].attemptId, retirements[j].launchId))
  }

  method OwnAttempts(ghost rows: seq<Row>, attempts: seq<(string, string)>)
    returns (ok: bool, owners: map<string, string>)
    requires |rows| == |attempts|
    requires forall i :: 0 <= i < |rows| ==> attempts[i] == (rows[i].attemptId, rows[i].id)
    ensures ok <==> AttemptsApart(rows)
    ensures ok ==> Owners(owners, rows, [])
  {
    hide AttemptsApart, Owners;
    owners := map[];
    var i := 0;
    NoAttempts(rows);
    while i < |attempts|
      invariant i <= |attempts|
      invariant AttemptsApart(rows[..i]) && Owners(owners, rows[..i], [])
    {
      var (attempt, id) := attempts[i];
      OneMoreAttempt(owners, rows, i);
      if attempt in owners {
        return false, owners;
      }
      owners := owners[attempt := id];
      i := i + 1;
    }
    assert rows[..i] == rows;
    return true, owners;
  }

  lemma NoAttempts(rows: seq<Row>)
    ensures AttemptsApart(rows[..0]) && Owners(map[], rows[..0], [])
  {
  }

  lemma OneMoreAttempt(owners: map<string, string>, rows: seq<Row>, i: nat)
    requires i < |rows| && AttemptsApart(rows[..i]) && Owners(owners, rows[..i], [])
    ensures rows[i].attemptId in owners ==> !AttemptsApart(rows)
    ensures rows[i].attemptId !in owners ==>
              AttemptsApart(rows[..i + 1]) && Owners(owners[rows[i].attemptId := rows[i].id], rows[..i + 1], [])
  {
    var attempt := rows[i].attemptId;
    if attempt in owners {
      var k :| 0 <= k < i && rows[..i][k].attemptId == attempt;
      assert rows[k].attemptId == rows[i].attemptId;
    } else {
      var more := rows[..i + 1];
      assert more == rows[..i] + [rows[i]] && more[i].attemptId == attempt;
      var later := owners[attempt := rows[i].id];
      forall a | a in later ensures exists k :: 0 <= k < |more| && more[k].attemptId == a && more[k].id == later[a] {
        if a != attempt {
          var k :| 0 <= k < i && rows[..i][k].attemptId == a && rows[..i][k].id == owners[a];
          assert more[k] == rows[..i][k];
        }
      }
    }
  }

  lemma NextCleanup(
      owners: map<string, string>, rows: seq<Row>, records: seq<Record>, cleanups: seq<Cleanup>, c: Cleanup)
    requires Owners(owners, rows, cleanups) && CleanupsOwned(rows, records, cleanups)
    ensures CleanupsOwned(rows, records, cleanups + [c]) <==>
            && (forall j :: 0 <= j < |records| ==> c.launchId != records[j].id)
            && (c.attemptId in owners ==> owners[c.attemptId] == c.launchId)
  {
    var all := cleanups + [c];
    var n := |cleanups|;
    assert all[n] == c && forall i :: 0 <= i < n ==> all[i] == cleanups[i];
    if CleanupsOwned(rows, records, all) && c.attemptId in owners {
      if i :| 0 <= i < |rows| && rows[i].attemptId == c.attemptId && rows[i].id == owners[c.attemptId] {
        assert all[n].launchId == rows[i].id;
      } else {
        var i :| 0 <= i < n && cleanups[i].attemptId == c.attemptId && cleanups[i].launchId == owners[c.attemptId];
        assert all[n].launchId == all[i].launchId;
      }
    }
  }

  lemma NextOwner(owners: map<string, string>, rows: seq<Row>, cleanups: seq<Cleanup>, c: Cleanup)
    requires Owners(owners, rows, cleanups)
    requires c.attemptId in owners ==> owners[c.attemptId] == c.launchId
    ensures Owners(owners[c.attemptId := c.launchId], rows, cleanups + [c])
  {
    var all := cleanups + [c];
    var next := owners[c.attemptId := c.launchId];
    assert all[|cleanups|] == c;
    forall a | a in next
      ensures || (exists i :: 0 <= i < |rows| && rows[i].attemptId == a && rows[i].id == next[a])
              || (exists i :: 0 <= i < |all| && all[i].attemptId == a && all[i].launchId == next[a])
    {
      if a == c.attemptId {
        assert all[|cleanups|].attemptId == a;
      } else if i :| 0 <= i < |cleanups| && cleanups[i].attemptId == a && cleanups[i].launchId == owners[a] {
        assert all[i].attemptId == a;
      }
    }
  }

  lemma CleanupsOwnedPrefix(rows: seq<Row>, records: seq<Record>, cleanups: seq<Cleanup>, n: nat)
    requires n <= |cleanups| && CleanupsOwned(rows, records, cleanups)
    ensures CleanupsOwned(rows, records, cleanups[..n])
  {
  }

  /** The loop over the cleanups, which goes on claiming attempts. */
  method OwnCleanups(ghost rows: seq<Row>, records: seq<Record>, cleanups: seq<Cleanup>, initial: map<string, string>)
    returns (ok: bool)
    requires Owners(initial, rows, [])
    ensures ok <==> CleanupsOwned(rows, records, cleanups)
  {
    var owners := initial;
    var i := 0;
    while i < |cleanups|
      invariant i <= |cleanups|
      invariant CleanupsOwned(rows, records, cleanups[..i]) && Owners(owners, rows, cleanups[..i])
    {
      var c := cleanups[i];
      assert cleanups[..i + 1] == cleanups[..i] + [c];
      NextCleanup(owners, rows, records, cleanups[..i], c);
      if (exists j | 0 <= j < |records| :: records[j].id == c.launchId)
          || (c.attemptId in owners && owners[c.attemptId] != c.launchId) {
        if CleanupsOwned(rows, records, cleanups) { CleanupsOwnedPrefix(rows, records, cleanups, i + 1); }
        return false;
      }
      NextOwner(owners, rows, cleanups[..i], c);
      owners := owners[c.attemptId := c.launchId];
      i := i + 1;
    }
    assert cleanups[..i] == cleanups;
    return true;
  }

  // ----- the checks together

  predicate Wellformed(l: Ledger) {
    && |l.records| <= MAX_RECORDS && (forall i :: 0 <= i < |l.records| ==> ValidRecord(l.records[i]))
    && |l.retirements| <= MAX_RETIREMENTS
    && (forall i :: 0 <= i < |l.retirements| ==> ValidRetirement(l.retirements[i]))
    && (forall i :: 0 <= i < |l.cleanups| ==> ValidCleanup(l.cleanups[i]))
  }

  ghost predicate PairsApart(records: seq<Record>, retirements: seq<Retirement>) {
    && (forall i, j :: 0 <= i < j < |records| ==> Apart(RecordRow(records[i]), RecordRow(records[j])))
    && (forall i, j :: 0 <= i < j < |retirements| ==>
        Apart(RetirementRow(retirements[i]), RetirementRow(retirements[j])))
    && Disjoint(records, retirements)
  }

  lemma PairsToRows(records: seq<Record>, retirements: seq<Retirement>)
    requires PairsApart(records, retirements)
    ensures IdentitiesApart(Rows(records, retirements)) && AttemptsApart(Rows(records, retirements))
  {
    hide RecordRow, RetirementRow;
    var rows := Rows(records, retirements);
    var n := |records|;
    forall i, j | 0 <= i < j < |rows| ensures Apart(rows[i], rows[j]) {
      if n <= i {
        assert rows[n + (i - n)] == RetirementRow(retirements[i - n]);
      }
      if n <= j {
        assert rows[n + (j - n)] == RetirementRow(retirements[j - n]);
      }
    }
  }

  lemma RowsToPairs(records: seq<Record>, retirements: seq<Retirement>)
    requires IdentitiesApart(Rows(records, retirements)) && AttemptsApart(Rows(records, retirements))
    ensures PairsApart(records, retirements)
  {
    hide RecordRow, RetirementRow, IdentitiesApart, AttemptsApart, Apart;
    var rows := Rows(records, retirements);
    var n := |records|;
    forall i, j | 0 <= i < j < |records| ensures Apart(RecordRow(records[i]), RecordRow(records[j])) {
      TwoRows(rows, i, j);
    }
    forall i, j | 0 <= i < j < |retirements|
      ensures Apart(RetirementRow(retirements[i]), RetirementRow(retirements[j]))
    {
      TwoRows(rows, n + i, n + j);
    }
    forall i, j | 0 <= i < |records| && 0 <= j < |retirements|
      ensures Apart(RecordRow(records[i]), RetirementRow(retirements[j]))
    {
      TwoRows(rows, i, n + j);
    }
  }

  lemma TwoRows(rows: seq<Row>, i: nat, j: nat)
    requires IdentitiesApart(rows) && AttemptsApart(rows) && i < j < |rows|
    ensures Apart(rows[i], rows[j])
  {
  }

  ghost predicate CleanupsFit(l: Ledger) {
    && CleanupsSound(l.cleanups) && CleanupsFitRetirements(l.cleanups, l.retirements)
    && CleanupsFitRecords(l.cleanups, l.records)
  }

  lemma CleanupParts(l: Ledger)
    requires PairsApart(l.records, l.retirements)
    ensures CleanupsFit(l) <==>
            && (forall i :: 0 <= i < |l.cleanups| ==> ValidCleanup(l.cleanups[i]))
            && CleanupsDistinct(l.cleanups) && CleanupsMatch(l.cleanups, l.retirements)
            && CleanupsOwned(Rows(l.records, l.retirements), l.records, l.cleanups)
  {
    hide ValidCleanup, Apart, Matches;
    var rows := Rows(l.records, l.retirements);
    var n := |l.records|;
    forall j | 0 <= j < |l.records|
      ensures rows[j].id == l.records[j].id && rows[j].attemptId == l.records[j].attemptId
    {
    }
    forall j | 0 <= j < |l.retirements|
      ensures rows[n + j].id == l.retirements[j].launchId && rows[n + j].attemptId == l.retirements[j].attemptId
    {
    }
    if CleanupsFit(l) {
      forall i, j | 0 <= i < |l.cleanups| && 0 <= j < |rows| && l.cleanups[i].attemptId == rows[j].attemptId
        ensures l.cleanups[i].launchId == rows[j].id
      {
        if n <= j {
          assert Compatible(l.cleanups[i], l.retirements[j - n]) && rows[n + (j - n)] == rows[j];
        }
      }
    }
  }

  lemma WellformedCleanups(l: Ledger)
    requires Wellformed(l)
    ensures forall i :: 0 <= i < |l.cleanups| ==> ValidCleanup(l.cleanups[i])
  {
  }

  lemma SoundInParts(l: Ledger)
    ensures Sound(l) <==>
            && Wellformed(l) && OwnKeysDiffer(l.records, l.retirements) && PairsApart(l.records, l.retirements)
            && CleanupsSound(l.cleanups) && CleanupsFitRetirements(l.cleanups, l.retirements)
            && CleanupsFitRecords(l.cleanups, l.records)
            && |l.cleanups| + RetiringCount(l.records) <= MAX_RETIREMENT_CLEANUPS
  {
    hide ValidRecord, ValidRetirement, ValidCleanup, Apart, Compatible, RecordRow, RetirementRow, RetiringCount;
  }

  predicate MatchingCleanups(cleanups: seq<Cleanup>, retirements: seq<Retirement>)
    ensures MatchingCleanups(cleanups, retirements)
            <==> CleanupsDistinct(cleanups) && CleanupsMatch(cleanups, retirements)
  {
    && (forall i, j | 0 <= i < j < |cleanups| :: cleanups[i].launchId != cleanups[j].launchId)
    && (forall i, j | 0 <= i < |cleanups| && 0 <= j < |retirements| ::
          cleanups[i].launchId == retirements[j].launchId ==> Matches(cleanups[i], retirements[j]))
  }

  /** `open` accepts exactly the readable documents. */
  method Admit(d: Document) returns (ok: bool)
    ensures ok <==> Readable(d)
  {
    hide Sound, PairsApart, IdentitiesApart, AttemptsApart, OwnKeysDiffer, CleanupsOwned, CleanupsSound,
         CleanupsFitRetirements, CleanupsFitRecords, Wellformed, CleanupsMatch, CleanupsDistinct, MatchingCleanups,
         Loaded;
    var l := Loaded(d);
    ghost var rows := Rows(l.records, l.retirements);
    SoundInParts(l);
    if !SupportedShape(d) || !Wellformed(l) { return false; }
    ok := ClaimIdentities(l.records, l.retirements);
    var owned, owners := OwnAttempts(rows, Attempts(l.records, l.retirements));
    if PairsApart(l.records, l.retirements) { PairsToRows(l.records, l.retirements); }
    if !ok || !MatchingCleanups(l.cleanups, l.retirements) || !owned {
      if PairsApart(l.records, l.retirements) { CleanupParts(l); }
      return false;
    }
    RowsToPairs(l.records, l.retirements);
    CleanupParts(l);
    WellformedCleanups(l);
    ok := OwnCleanups(rows, l.records, l.cleanups, owners);
    if !ok { return; }
    ok := |l.cleanups| + RetiringCount(l.records) <= MAX_RETIREMENT_CLEANUPS;
  }
}
