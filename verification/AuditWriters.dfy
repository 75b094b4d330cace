// The writers of the audit ledger: the migration's import, the chain triggers and the guard. manager/audit_chain.py.
module AuditWriters {
  import opened Aggregates
  import opened AuditChain

  // The row that append and the chain triggers write for a source row.
  function NewRow(c: Codec, ledger: seq<Row>, source: string, p: SourceRow, links: Links, legacy: bool): Row {
    var draft := Row(LastSequence(ledger) + 1, HeadHash(ledger), source, c.join(p.key), p.event, p.actor, links,
                     p.occurredAt, c.render(p), legacy, "");
    draft.(eventHash := c.hash(FieldsOf(draft, p)))
  }

  predicate SlotTaken(c: Codec, ledger: seq<Row>, source: string, key: seq<string>) {
    exists i :: 0 <= i < |ledger| && ledger[i].source == source && ledger[i].sourceId == c.join(key)
  }

  // The trigger response_audit_guard on a direct insert.
  predicate GuardAccepts(c: Codec, ledger: seq<Row>, r: Row) {
    && r.sequence == LastSequence(ledger) + 1
    && r.previousHash == HeadHash(ledger)
    && PayloadOf(c, r).Some?
    && r.eventHash == c.hash(FieldsOf(r, PayloadOf(c, r).value))
    && !r.legacy
  }

  // INSERT into a source table, with its chain trigger, as one statement: a duplicate key or a
  // duplicate (source, source_id) refuses both.
  predicate InsertRefused(c: Codec, db: Db, source: string, p: SourceRow) {
    source !in db.tables || p.key in db.tables[source] || SlotTaken(c, db.ledger, source, p.key)
  }

  function Inserted(c: Codec, db: Db, source: string, p: SourceRow, links: Links): Db {
    if InsertRefused(c, db, source, p) then db
    else Db(db.ledger + [NewRow(c, db.ledger, source, p, links, false)],
            db.tables[source := db.tables[source][p.key := p]])
  }

  datatype Write =
    | Insert(source: string, row: SourceRow, links: Links)
    | CreateSource(source: string)

  function Written(c: Codec, db: Db, w: Write): Db {
    match w
    case Insert(t, p, links) => Inserted(c, db, t, p, links)
    case CreateSource(t) => if t in db.tables then db else db.(tables := db.tables[t := map[]])
  }

  function WrittenAll(c: Codec, db: Db, ws: seq<Write>): Db {
    if ws == [] then db else Written(c, WrittenAll(c, db, ws[..|ws| - 1]), ws[|ws| - 1])
  }

  // Migration 27: the rows that exist are appended once each, labelled legacy.
  datatype Import = Import(source: string, row: SourceRow, links: Links)

  function Imported(c: Codec, rows: seq<Import>): seq<Row> {
    if rows == [] then []
    else
      var ledger := Imported(c, rows[..|rows| - 1]);
      var last := rows[|rows| - 1];
      ledger + [NewRow(c, ledger, last.source, last.row, last.links, true)]
  }

  // rows lists every row of every table exactly once, and no two share a ledger identity
  // (otherwise UNIQUE(source, source_id) aborts the migration).
  ghost predicate Enumerates(c: Codec, rows: seq<Import>, tables: map<string, Table>) {
    && Present(rows, tables)
    && (forall i, j :: 0 <= i < j < |rows| ==>
          !(rows[i].source == rows[j].source && c.join(rows[i].row.key) == c.join(rows[j].row.key)))
    && (forall t, k :: t in tables && k in tables[t] ==>
          exists i :: 0 <= i < |rows| && rows[i].source == t && rows[i].row.key == k)
  }

  ghost predicate LegacyPrefix(ledger: seq<Row>, n: nat) {
    n <= |ledger| && forall i :: 0 <= i < |ledger| ==> (ledger[i].legacy <==> i < n)
  }

  lemma LastIsLength(c: Codec, db: Db)
    requires Linked(c, db)
    ensures LastSequence(db.ledger) == |db.ledger|
  {
    if db.ledger != [] { assert RowOk(c, db, |db.ledger| - 1); }
  }

  // The row NewRow builds is the next chained row, repeats p, and passes the guard unless it is legacy.
  lemma NewRowOk(c: Codec, db: Db, source: string, p: SourceRow, links: Links, legacy: bool, tables: map<string, Table>)
    requires RoundTrips(c) && Linked(c, db)
    requires source in tables && p.key in tables[source] && tables[source][p.key] == p
    ensures var r := NewRow(c, db.ledger, source, p, links, legacy);
      && Chained(c, r, |db.ledger|, HashBefore(db.ledger, |db.ledger|)) && Sourced(c, tables, r)
      && PayloadOf(c, r) == Some(p) && r.source == source && r.links == links && r.legacy == legacy
      && (!legacy ==> GuardAccepts(c, db.ledger, r))
  {
    LastIsLength(c, db);
  }

  // Appending it keeps every prior row and links the new one.
  lemma AppendLinked(c: Codec, db: Db, r: Row, tables: map<string, Table>)
    requires Linked(c, db)
    requires Chained(c, r, |db.ledger|, HashBefore(db.ledger, |db.ledger|)) && Sourced(c, tables, r)
    requires forall i :: 0 <= i < |db.ledger| && Sourced(c, db.tables, db.ledger[i]) ==> Sourced(c, tables, db.ledger[i])
    ensures Linked(c, Db(db.ledger + [r], tables))
  {
    hide Chained, Sourced;
    var after := Db(db.ledger + [r], tables);
    forall i | 0 <= i < |after.ledger| ensures RowOk(c, after, i) {
      if i < |db.ledger| {
        assert RowOk(c, db, i);
        assert after.ledger[i] == db.ledger[i];
        assert HashBefore(after.ledger, i) == HashBefore(db.ledger, i);
      }
    }
  }

  lemma {:induction false} CountAppend(ledger: seq<Row>, r: Row, source: string, n: nat)
    requires n <= |ledger|
    ensures CountSource(ledger + [r], source, n) == CountSource(ledger, source, n)
  {
    if n > 0 { CountAppend(ledger, r, source, n - 1); }
  }

  lemma InsertCovered(db: Db, source: string, p: SourceRow, r: Row)
    requires Covered(db) && source in db.tables && p.key !in db.tables[source] && r.source == source
    ensures Covered(Db(db.ledger + [r], db.tables[source := db.tables[source][p.key := p]]))
  {
    var after := Db(db.ledger + [r], db.tables[source := db.tables[source][p.key := p]]);
    forall t | t in after.tables ensures CountSource(after.ledger, t, |after.ledger|) == |after.tables[t]| {
      CountAppend(db.ledger, r, t, |db.ledger|);
      if t == source {
        assert after.tables[t].Keys == db.tables[t].Keys + {p.key};
        assert |after.tables[t].Keys| == |after.tables[t]| && |db.tables[t].Keys| == |db.tables[t]|;
      }
    }
  }

  // One insert keeps verification, identities and the legacy prefix, and only appends; the
  // appended row passes the guard trigger.
  lemma InsertKeeps(c: Codec, db: Db, source: string, p: SourceRow, links: Links, n: nat)
    requires RoundTrips(c) && Verified(c, db) && UniqueIds(db.ledger) && LegacyPrefix(db.ledger, n)
    ensures var after := Inserted(c, db, source, p, links);
      && Verified(c, after) && UniqueIds(after.ledger) && LegacyPrefix(after.ledger, n)
      && db.ledger <= after.ledger
      && (!InsertRefused(c, db, source, p) ==>
            |after.ledger| == |db.ledger| + 1 && GuardAccepts(c, db.ledger, after.ledger[|db.ledger|]))
  {
    hide Linked, Covered, Chained, GuardAccepts;
    if !InsertRefused(c, db, source, p) {
      var r := NewRow(c, db.ledger, source, p, links, false);
      var tables := db.tables[source := db.tables[source][p.key := p]];
      NewRowOk(c, db, source, p, links, false, tables);
      AppendLinked(c, db, r, tables);
      InsertCovered(db, source, p, r);
    }
  }

  // A source row is written, with its ledger row, exactly when its table exists, its key is new, and no ledger row has
  // its identity; otherwise nothing changes.
  lemma InsertExactly(c: Codec, db: Db, source: string, p: SourceRow, links: Links)
    ensures var after := Inserted(c, db, source, p, links);
      var free := source in db.tables && p.key !in db.tables[source]
        && forall i :: 0 <= i < |db.ledger| ==> !(db.ledger[i].source == source && db.ledger[i].sourceId == c.join(p.key));
      if free then
        && |after.ledger| == |db.ledger| + 1 && db.ledger <= after.ledger && after.ledger[|db.ledger|].source == source
        && after.tables == db.tables[source := db.tables[source][p.key := p]]
      else after == db
  {
  }

  // A new source table starts empty, beside the others.
  lemma SourceCreated(c: Codec, db: Db, t: string)
    requires t !in db.tables
    ensures Written(c, db, CreateSource(t)) == Db(db.ledger, db.tables[t := map[]])
  {
  }

  // The guard on direct inserts accepts exactly the unlabelled rows that continue the chain.
  lemma GuardExactly(c: Codec, db: Db, r: Row)
    requires Linked(c, db)
    ensures GuardAccepts(c, db.ledger, r) <==> !r.legacy && Chained(c, r, |db.ledger|, HashBefore(db.ledger, |db.ledger|))
  {
    LastIsLength(c, db);
    CountEnds(db.ledger);
  }

  lemma CreateKeeps(c: Codec, db: Db, t: string)
    requires Verified(c, db) && t !in db.tables
    ensures Verified(c, db.(tables := db.tables[t := map[]]))
  {
    var after := db.(tables := db.tables[t := map[]]);
    forall i | 0 <= i < |db.ledger| ensures RowOk(c, after, i) {
      assert RowOk(c, db, i);
    }
    NoRowsOf(c, db, t, |db.ledger|);
  }

  lemma {:induction false} NoRowsOf(c: Codec, db: Db, t: string, n: nat)
    requires Linked(c, db) && t !in db.tables && n <= |db.ledger|
    ensures CountSource(db.ledger, t, n) == 0
  {
    if n > 0 {
      NoRowsOf(c, db, t, n - 1);
      assert RowOk(c, db, n - 1);
    }
  }

  lemma {:induction false} WritesKeep(c: Codec, db: Db, ws: seq<Write>, n: nat)
    requires RoundTrips(c) && Verified(c, db) && UniqueIds(db.ledger) && LegacyPrefix(db.ledger, n)
    ensures var after := WrittenAll(c, db, ws);
      Verified(c, after) && UniqueIds(after.ledger) && LegacyPrefix(after.ledger, n) && db.ledger <= after.ledger
  {
    hide Verified, UniqueIds, LegacyPrefix, Inserted;
    if ws != [] {
      WritesKeep(c, db, ws[..|ws| - 1], n);
      var mid := WrittenAll(c, db, ws[..|ws| - 1]);
      match ws[|ws| - 1]
      case Insert(t, p, links) => InsertKeeps(c, mid, t, p, links, n);
      case CreateSource(t) => if t !in mid.tables { CreateKeeps(c, mid, t); }
    }
  }

  // Row i of the ledger is the import of rows[i].
  ghost predicate ImportOf(c: Codec, ledger: seq<Row>, rows: seq<Import>) {
    |ledger| == |rows| && forall i :: 0 <= i < |rows| ==>
      ledger[i].source == rows[i].source && ledger[i].sourceId == c.join(rows[i].row.key)
      && PayloadOf(c, ledger[i]) == Some(rows[i].row) && ledger[i].legacy
  }

  ghost predicate Present(rows: seq<Import>, tables: map<string, Table>) {
    forall i :: 0 <= i < |rows| ==>
      rows[i].source in tables && rows[i].row.key in tables[rows[i].source]
      && tables[rows[i].source][rows[i].row.key] == rows[i].row
  }

  lemma {:induction false} ImportKeeps(c: Codec, rows: seq<Import>, tables: map<string, Table>)
    requires RoundTrips(c) && Present(rows, tables)
    ensures Linked(c, Db(Imported(c, rows), tables)) && ImportOf(c, Imported(c, rows), rows)
  {
    hide Linked, Chained, Sourced, PayloadOf;
    if rows != [] {
      var less := rows[..|rows| - 1];
      ImportKeeps(c, less, tables);
      var ledger := Imported(c, less);
      var last := rows[|rows| - 1];
      NewRowOk(c, Db(ledger, tables), last.source, last.row, last.links, true, tables);
      AppendLinked(c, Db(ledger, tables), NewRow(c, ledger, last.source, last.row, last.links, true), tables);
    } else {
      EmptyLinked(c, tables);
    }
  }

  lemma EmptyLinked(c: Codec, tables: map<string, Table>)
    ensures Linked(c, Db([], tables))
  {
  }

  lemma ImportCovers(c: Codec, ledger: seq<Row>, rows: seq<Import>, tables: map<string, Table>, t: string)
    requires Enumerates(c, rows, tables) && ImportOf(c, ledger, rows) && Linked(c, Db(ledger, tables)) && t in tables
    ensures CountSource(ledger, t, |ledger|) == |tables[t]|
  {
    var db := Db(ledger, tables);
    CoveredKeysCount(c, db, |ledger|, t);
    CoveredKeysInTable(c, db, t);
    var keys := CoveredKeys(c, ledger, t, |ledger|);
    forall k | k in tables[t] ensures k in keys {
      var i :| 0 <= i < |rows| && rows[i].source == t && rows[i].row.key == k;
      CoveredKeysWitness(c, ledger, t, |ledger|, k);
      assert ledger[i].source == t && KeyOf(c, ledger[i]) == k;
    }
    assert keys == tables[t].Keys;
    assert |tables[t].Keys| == |tables[t]|;
  }

  // The imported ledger verifies, with exactly its own rows as the legacy prefix.
  lemma ImportVerifies(c: Codec, rows: seq<Import>, tables: map<string, Table>)
    requires RoundTrips(c) && Enumerates(c, rows, tables)
    ensures var db := Db(Imported(c, rows), tables);
      Verified(c, db) && UniqueIds(db.ledger) && LegacyPrefix(db.ledger, |rows|)
  {
    hide Linked, CountSource;
    ImportKeeps(c, rows, tables);
    forall t | t in tables ensures CountSource(Imported(c, rows), t, |Imported(c, rows)|) == |tables[t]| {
      ImportCovers(c, Imported(c, rows), rows, tables, t);
    }
  }

  // Every ledger built by the migration import followed by any writes verifies; the legacy rows are
  // exactly the imported ones and form an initial prefix.
  lemma BuiltLedgerVerifies(c: Codec, rows: seq<Import>, tables: map<string, Table>, ws: seq<Write>)
    requires RoundTrips(c) && Enumerates(c, rows, tables)
    ensures var db := WrittenAll(c, Db(Imported(c, rows), tables), ws);
      Verified(c, db) && UniqueIds(db.ledger) && LegacyPrefix(db.ledger, |rows|)
  {
    ImportVerifies(c, rows, tables);
    WritesKeep(c, Db(Imported(c, rows), tables), ws, |rows|);
  }

  lemma {:induction false} LegacyCounted(ledger: seq<Row>, n: nat, k: nat)
    requires LegacyPrefix(ledger, n) && k <= |ledger|
    ensures CountLegacy(ledger, k) == if k <= n then k else n
  {
    if k > 0 { LegacyCounted(ledger, n, k - 1); }
  }

  // So the summary of such a ledger counts exactly its imported rows as legacy.
  lemma SummaryCountsImports(db: Db, n: nat)
    requires LegacyPrefix(db.ledger, n)
    ensures SummaryOf(db).legacy == n
  {
    LegacyCounted(db.ledger, n, |db.ledger|);
  }

  // The tables as the writers change them.
  class Ledger {
    var rows: seq<Row>
    var tables: map<string, Table>

    ghost function Contents(): Db
      reads this
    {
      Db(rows, tables)
    }

    constructor (c: Codec, history: seq<Import>, sources: map<string, Table>)
      requires RoundTrips(c) && Enumerates(c, history, sources)
      ensures Contents() == Db(Imported(c, history), sources)
      ensures Verified(c, Contents()) && UniqueIds(rows) && LegacyPrefix(rows, |history|)
    {
      rows, tables := [], sources;
      new;
      hide NewRow, Enumerates, Verified, UniqueIds, LegacyPrefix;
      for i := 0 to |history|
        invariant rows == Imported(c, history[..i]) && tables == sources
      {
        assert history[..i + 1][..i] == history[..i];
        rows := rows + [NewRow(c, rows, history[i].source, history[i].row, history[i].links, true)];
      }
      assert history[..|history|] == history;
      ImportVerifies(c, history, sources);
    }

    // A source insert and its chain row happen together or not at all.
    method Record(c: Codec, source: string, p: SourceRow, links: Links, ghost n: nat) returns (ok: bool)
      requires RoundTrips(c) && Verified(c, Contents()) && UniqueIds(rows) && LegacyPrefix(rows, n)
      modifies this
      ensures Contents() == Inserted(c, old(Contents()), source, p, links)
      ensures ok <==> !InsertRefused(c, old(Contents()), source, p)
      ensures Verified(c, Contents()) && UniqueIds(rows) && LegacyPrefix(rows, n)
    {
      InsertKeeps(c, Contents(), source, p, links, n);
      if source !in tables || p.key in tables[source] || SlotTaken(c, rows, source, p.key) {
        return false;
      }
      rows := rows + [NewRow(c, rows, source, p, links, false)];
      tables := tables[source := tables[source][p.key := p]];
      ok := true;
    }
  }
}
