// The hash-chained response audit ledger: manager/audit_chain.py.
//
// A ledger row stores its payload as text, while the hash and the source comparison read the
// parsed payload. SHA-256 over the canonical record is a function of the parsed fields; where a result
// needs collision resistance it says so (Injective).
module AuditChain {
  import opened Aggregates

  const ZERO: string := "0000000000000000000000000000000000000000000000000000000000000000"

  // A row of one of the audited source tables. Its key columns, the columns the chain repeats, the rest.
  datatype SourceRow = SourceRow(key: seq<string>, event: string, actor: string, occurredAt: string, rest: string)

  datatype Links = Links(requestId: Option<string>, commandId: Option<string>, assetId: Option<string>)

  // What event_hash covers.
  datatype Fields = Fields(
    sequence: int, previousHash: string, source: string, sourceId: string, event: string, actor: string,
    links: Links, occurredAt: string, payload: SourceRow, legacy: bool)

  datatype Row = Row(
    sequence: int, previousHash: string, source: string, sourceId: string, event: string, actor: string,
    links: Links, occurredAt: string, payloadText: string, legacy: bool, eventHash: string)

  type Table = map<seq<string>, SourceRow>

  datatype Db = Db(ledger: seq<Row>, tables: map<string, Table>)

  // SHA-256 of the canonical record, JSON reading and writing, and ":".join.
  datatype Codec = Codec(
    hash: Fields -> string, parse: string -> Option<SourceRow>, render: SourceRow -> string,
    join: seq<string> -> string)

  ghost predicate Injective(c: Codec) {
    forall f, g :: c.hash(f) == c.hash(g) ==> f == g
  }

  ghost predicate RoundTrips(c: Codec) {
    forall r :: c.parse(c.render(r)) == Some(r)
  }

  function HeadHash(ledger: seq<Row>): string {
    if ledger == [] then ZERO else ledger[|ledger| - 1].eventHash
  }

  function LastSequence(ledger: seq<Row>): int {
    if ledger == [] then 0 else ledger[|ledger| - 1].sequence
  }

  function FieldsOf(r: Row, payload: SourceRow): Fields {
    Fields(r.sequence, r.previousHash, r.source, r.sourceId, r.event, r.actor, r.links, r.occurredAt, payload, r.legacy)
  }

  // ---- full verification, declaratively ----

  function PayloadOf(c: Codec, r: Row): Option<SourceRow> { c.parse(r.payloadText) }

  // Row r follows a chain of n rows that ends in hash previous.
  predicate Chained(c: Codec, r: Row, n: nat, previous: string) {
    && r.sequence == n + 1
    && r.previousHash == previous
    && PayloadOf(c, r).Some?
    && r.eventHash == c.hash(FieldsOf(r, PayloadOf(c, r).value))
  }

  // Row r repeats exactly one row of the source table it names.
  predicate Sourced(c: Codec, tables: map<string, Table>, r: Row) {
    && r.source in tables
    && PayloadOf(c, r).Some?
    && var p := PayloadOf(c, r).value;
       && p.key in tables[r.source] && tables[r.source][p.key] == p
       && r.sourceId == c.join(p.key)
       && r.event == p.event && r.actor == p.actor && r.occurredAt == p.occurredAt
  }

  // The hash in front of row n.
  function HashBefore(ledger: seq<Row>, n: nat): string
    requires n <= |ledger|
  {
    if n == 0 then ZERO else ledger[n - 1].eventHash
  }

  // How many of the first n rows name this source; how many are legacy imports.
  function CountSource(ledger: seq<Row>, source: string, n: nat): nat
    requires n <= |ledger|
  {
    if n == 0 then 0 else CountSource(ledger, source, n - 1) + if ledger[n - 1].source == source then 1 else 0
  }

  function CountLegacy(ledger: seq<Row>, n: nat): nat
    requires n <= |ledger|
  {
    if n == 0 then 0 else CountLegacy(ledger, n - 1) + if ledger[n - 1].legacy then 1 else 0
  }

  predicate RowOk(c: Codec, db: Db, i: nat)
    requires i < |db.ledger|
  {
    Chained(c, db.ledger[i], i, HashBefore(db.ledger, i)) && Sourced(c, db.tables, db.ledger[i])
  }

  ghost predicate Linked(c: Codec, db: Db) {
    forall i :: 0 <= i < |db.ledger| ==> RowOk(c, db, i)
  }

  ghost predicate Covered(db: Db) {
    forall t :: t in db.tables ==> CountSource(db.ledger, t, |db.ledger|) == |db.tables[t]|
  }

  ghost predicate Verified(c: Codec, db: Db) {
    Linked(c, db) && Covered(db)
  }

  datatype Summary = Summary(sequence: nat, headHash: string, legacy: nat)

  function SummaryOf(db: Db): Summary {
    Summary(|db.ledger|, HeadHash(db.ledger), CountLegacy(db.ledger, |db.ledger|))
  }

  // The loop of verify accepts exactly the verified databases and reports their true summary.
  method Verify(c: Codec, db: Db, requireChained: bool) returns (result: Option<Summary>)
    ensures result.Some? <==> Verified(c, db) && (requireChained ==> forall i :: 0 <= i < |db.ledger| ==> !db.ledger[i].legacy)
    ensures result.Some? ==> result.value == SummaryOf(db)
    ensures result.Some? ==> forall i :: 0 <= i < |db.ledger| ==> Repeats(c, db, i)
  {
    hide Chained, Sourced, RowOk, CountSource, CountLegacy, HashBefore;
    var previous, sequence, legacy := ZERO, 0, 0;
    var seen := map t | t in db.tables :: 0;
    CountEnds(db.ledger);
    while sequence < |db.ledger|
      invariant 0 <= sequence <= |db.ledger|
      invariant previous == HashBefore(db.ledger, sequence)
      invariant legacy == CountLegacy(db.ledger, sequence)
      invariant seen.Keys == db.tables.Keys
      invariant forall t :: t in seen ==> seen[t] == CountSource(db.ledger, t, sequence)
      invariant forall i :: 0 <= i < sequence ==> RowOk(c, db, i)
      invariant requireChained ==> forall i :: 0 <= i < sequence ==> !db.ledger[i].legacy
    {
      var row := db.ledger[sequence];
      RowCheck(c, db, sequence);
      if !Chained(c, row, sequence, previous) || !Sourced(c, db.tables, row) { return None; }
      if row.legacy && requireChained { return None; }
      CountNext(db.ledger, sequence);
      seen := seen[row.source := seen[row.source] + 1];
      legacy := legacy + if row.legacy then 1 else 0;
      previous := row.eventHash;
      sequence := sequence + 1;
    }
    if exists t :: t in seen && seen[t] != |db.tables[t]| {
      return None;
    }
    forall i | 0 <= i < |db.ledger| ensures Repeats(c, db, i) { RowRepeats(c, db, i); }
    result := Some(Summary(sequence, previous, legacy));
  }

  // Some source row has the identity of ledger row i, its columns and its whole content.
  ghost predicate Repeats(c: Codec, db: Db, i: int)
    requires 0 <= i < |db.ledger|
  {
    var r := db.ledger[i];
    r.source in db.tables && exists k :: k in db.tables[r.source] && Copies(c, r, k, db.tables[r.source][k])
  }

  ghost predicate Copies(c: Codec, r: Row, key: seq<string>, p: SourceRow) {
    && r.sourceId == c.join(key) && r.event == p.event && r.actor == p.actor && r.occurredAt == p.occurredAt
    && c.parse(r.payloadText) == Some(p)
  }

  lemma RowRepeats(c: Codec, db: Db, i: nat)
    requires i < |db.ledger| && RowOk(c, db, i)
    ensures Repeats(c, db, i)
  {
    var r := db.ledger[i];
    var key := PayloadOf(c, r).value.key;
    assert key in db.tables[r.source] && Copies(c, r, key, db.tables[r.source][key]);
  }

  // A row whose identity, event, actor or time is altered does not verify, whatever hashes are recomputed: two
  // ledgers that verify over the same sources and give the same payload in one place agree on all its columns.
  lemma AlteredColumnRefused(c: Codec, db: Db, altered: Db, i: nat)
    requires Verified(c, db) && altered.tables == db.tables && i < |db.ledger| && i < |altered.ledger|
    requires altered.ledger[i].source == db.ledger[i].source && altered.ledger[i].payloadText == db.ledger[i].payloadText
    ensures Verified(c, altered) ==> var a, b := altered.ledger[i], db.ledger[i];
      a.sourceId == b.sourceId && a.event == b.event && a.actor == b.actor && a.occurredAt == b.occurredAt
  {
    hide RowOk;
    if Verified(c, altered) { SameCopy(c, db, altered, i); }
  }

  lemma SameCopy(c: Codec, db: Db, altered: Db, i: nat)
    requires i < |db.ledger| && i < |altered.ledger| && RowOk(c, db, i) && RowOk(c, altered, i)
    requires altered.ledger[i].source == db.ledger[i].source && altered.ledger[i].payloadText == db.ledger[i].payloadText
    ensures var a, b := altered.ledger[i], db.ledger[i];
      a.sourceId == b.sourceId && a.event == b.event && a.actor == b.actor && a.occurredAt == b.occurredAt
  {
  }

  // The checks of one iteration decide the row.
  lemma RowCheck(c: Codec, db: Db, i: nat)
    requires i < |db.ledger|
    ensures RowOk(c, db, i) <==> Chained(c, db.ledger[i], i, HashBefore(db.ledger, i)) && Sourced(c, db.tables, db.ledger[i])
    ensures Sourced(c, db.tables, db.ledger[i]) ==> db.ledger[i].source in db.tables
  {
  }

  lemma CountEnds(ledger: seq<Row>)
    ensures HashBefore(ledger, |ledger|) == HeadHash(ledger)
    ensures HashBefore(ledger, 0) == ZERO && CountLegacy(ledger, 0) == 0 && forall t :: CountSource(ledger, t, 0) == 0
  {
  }

  lemma CountNext(ledger: seq<Row>, n: nat)
    requires n < |ledger|
    ensures HashBefore(ledger, n + 1) == ledger[n].eventHash
    ensures CountLegacy(ledger, n + 1) == CountLegacy(ledger, n) + if ledger[n].legacy then 1 else 0
    ensures forall t :: CountSource(ledger, t, n + 1) == CountSource(ledger, t, n) + if ledger[n].source == t then 1 else 0
  {
  }

  // UNIQUE(source, source_id)
  ghost predicate UniqueIds(ledger: seq<Row>) {
    forall i, j :: 0 <= i < j < |ledger| ==>
      !(ledger[i].source == ledger[j].source && ledger[i].sourceId == ledger[j].sourceId)
  }

  // Ledger row i is the snapshot of the row with this key in this source table.
  ghost predicate Covers(c: Codec, db: Db, i: int, source: string, key: seq<string>) {
    && 0 <= i < |db.ledger|
    && source in db.tables && key in db.tables[source]
    && db.ledger[i].source == source
    && PayloadOf(c, db.ledger[i]) == Some(db.tables[source][key])
    && db.tables[source][key].key == key
  }

  // The key of the payload a row repeats.
  ghost function KeyOf(c: Codec, r: Row): seq<string> {
    if PayloadOf(c, r).Some? then PayloadOf(c, r).value.key else []
  }

  // The keys that the first n rows give for this source.
  ghost function CoveredKeys(c: Codec, ledger: seq<Row>, source: string, n: nat): set<seq<string>>
    requires n <= |ledger|
  {
    if n == 0 then {}
    else CoveredKeys(c, ledger, source, n - 1) + if ledger[n - 1].source == source then {KeyOf(c, ledger[n - 1])} else {}
  }

  lemma {:induction false} CoveredKeysWitness(c: Codec, ledger: seq<Row>, source: string, n: nat, key: seq<string>)
    requires n <= |ledger|
    ensures key in CoveredKeys(c, ledger, source, n) <==>
            exists i :: 0 <= i < n && ledger[i].source == source && KeyOf(c, ledger[i]) == key
  {
    if n > 0 { CoveredKeysWitness(c, ledger, source, n - 1, key); }
  }

  // Two rows of one source repeat different source rows.
  lemma DistinctKeys(c: Codec, db: Db, i: nat, j: nat)
    requires Linked(c, db) && UniqueIds(db.ledger) && i < j < |db.ledger| && db.ledger[i].source == db.ledger[j].source
    ensures KeyOf(c, db.ledger[i]) != KeyOf(c, db.ledger[j])
  {
    assert RowOk(c, db, i) && RowOk(c, db, j);
  }

  lemma NewKey(c: Codec, db: Db, n: nat, source: string)
    requires Linked(c, db) && UniqueIds(db.ledger) && n < |db.ledger| && db.ledger[n].source == source
    ensures KeyOf(c, db.ledger[n]) !in CoveredKeys(c, db.ledger, source, n)
  {
    hide Linked, UniqueIds, KeyOf, CoveredKeys;
    CoveredKeysWitness(c, db.ledger, source, n, KeyOf(c, db.ledger[n]));
    forall i | 0 <= i < n && db.ledger[i].source == source ensures KeyOf(c, db.ledger[i]) != KeyOf(c, db.ledger[n]) {
      DistinctKeys(c, db, i, n);
    }
  }

  lemma {:induction false} CoveredKeysCount(c: Codec, db: Db, n: nat, source: string)
    requires Linked(c, db) && UniqueIds(db.ledger) && n <= |db.ledger|
    ensures |CoveredKeys(c, db.ledger, source, n)| == CountSource(db.ledger, source, n)
  {
    hide Linked, UniqueIds, KeyOf;
    if n > 0 {
      CoveredKeysCount(c, db, n - 1, source);
      if db.ledger[n - 1].source == source { NewKey(c, db, n - 1, source); }
    }
  }

  lemma CoveredKeysInTable(c: Codec, db: Db, source: string)
    requires Linked(c, db) && source in db.tables
    ensures CoveredKeys(c, db.ledger, source, |db.ledger|) <= db.tables[source].Keys
  {
    forall k | k in CoveredKeys(c, db.ledger, source, |db.ledger|) ensures k in db.tables[source].Keys {
      CoveredKeysWitness(c, db.ledger, source, |db.ledger|, k);
      var i :| 0 <= i < |db.ledger| && db.ledger[i].source == source && KeyOf(c, db.ledger[i]) == k;
      assert RowOk(c, db, i);
    }
  }

  // Every source row has a ledger row.
  lemma SourceRowCovered(c: Codec, db: Db, source: string, key: seq<string>) returns (i: int)
    requires Verified(c, db) && UniqueIds(db.ledger)
    requires source in db.tables && key in db.tables[source]
    ensures Covers(c, db, i, source, key)
  {
    var keys := CoveredKeys(c, db.ledger, source, |db.ledger|);
    CoveredKeysCount(c, db, |db.ledger|, source);
    CoveredKeysInTable(c, db, source);
    assert |db.tables[source]| == |db.tables[source].Keys|;
    SameSizeSubset(keys, db.tables[source].Keys);
    CoveredKeysWitness(c, db.ledger, source, |db.ledger|, key);
    i :| 0 <= i < |db.ledger| && db.ledger[i].source == source && KeyOf(c, db.ledger[i]) == key;
    assert RowOk(c, db, i);
  }

  // If verification accepts, ledger rows and source rows correspond one to one.
  lemma VerifiedIsBijection(c: Codec, db: Db)
    requires Verified(c, db) && UniqueIds(db.ledger)
    ensures forall t, k :: t in db.tables && k in db.tables[t] ==> exists i :: Covers(c, db, i, t, k)
    ensures forall i :: 0 <= i < |db.ledger| ==> Covers(c, db, i, db.ledger[i].source, KeyOf(c, db.ledger[i]))
    ensures forall i, j, t, k :: Covers(c, db, i, t, k) && Covers(c, db, j, t, k) ==> i == j
  {
    forall t, k | t in db.tables && k in db.tables[t] ensures exists i :: Covers(c, db, i, t, k) {
      var i := SourceRowCovered(c, db, t, k);
    }
    forall i | 0 <= i < |db.ledger| ensures Covers(c, db, i, db.ledger[i].source, KeyOf(c, db.ledger[i])) {
      assert RowOk(c, db, i);
    }
    forall i, j, t, k | Covers(c, db, i, t, k) && Covers(c, db, j, t, k) ensures i == j {
      if i < j { DistinctKeys(c, db, i, j); }
      if j < i { DistinctKeys(c, db, j, i); }
    }
  }
}
