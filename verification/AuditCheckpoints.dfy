// Checkpoints of the audit ledger: what a signed anchor pins, and what it does not. manager/audit_chain.py.
module AuditCheckpoints {
  import opened Aggregates
  import opened AuditChain
  import opened AuditWriters

  datatype Anchor = Anchor(ledgerId: string, sequence: nat, headHash: string)

  function AnchorOf(db: Db, ledgerId: string): Anchor {
    Anchor(ledgerId, |db.ledger|, HeadHash(db.ledger))
  }

  // SELECT event_hash ... WHERE sequence=?
  function HashAt(ledger: seq<Row>, sequence: nat): string {
    if 0 < sequence <= |ledger| then ledger[sequence - 1].eventHash else ZERO
  }

  // verify_checkpoint; authentic stands for the signature, key identity and digest checks.
  ghost predicate CheckpointAccepts(c: Codec, db: Db, ledgerId: string, anchor: Anchor, authentic: bool) {
    && authentic && anchor.ledgerId == ledgerId
    && Verified(c, db)
    && HashAt(db.ledger, anchor.sequence) == anchor.headHash
    && anchor.sequence <= |db.ledger|
  }

  // The hash of the anchor is that of the row with its sequence.
  predicate Stands(ledger: seq<Row>, anchor: Anchor) {
    0 < anchor.sequence ==> anchor.sequence <= |ledger| && ledger[anchor.sequence - 1].eventHash == anchor.headHash
  }

  method VerifyCheckpoint(c: Codec, db: Db, ledgerId: string, anchor: Anchor, authentic: bool)
    returns (result: Option<Summary>)
    ensures result.Some? <==> CheckpointAccepts(c, db, ledgerId, anchor, authentic)
    ensures result.Some? ==> result.value == SummaryOf(db)
    ensures result.Some? ==> authentic && anchor.ledgerId == ledgerId && Stands(db.ledger, anchor)
  {
    if !authentic || anchor.ledgerId != ledgerId { return None; }
    result := Verify(c, db, false);
    if result.None? { return; }
    if HashAt(db.ledger, anchor.sequence) != anchor.headHash || result.value.sequence < anchor.sequence {
      result := None;
    }
  }

  // The same event: every hashed field agrees. Only the spelling of the payload text may differ.
  ghost predicate SameEvent(c: Codec, a: Row, b: Row) {
    a == b.(payloadText := a.payloadText) && PayloadOf(c, a) == PayloadOf(c, b)
  }

  // Equal hashes at one position force the same events at all positions up to it.
  lemma {:induction false} ChainPinned(c: Codec, earlier: Db, now: Db, n: nat)
    requires Injective(c) && Linked(c, earlier) && Linked(c, now)
    requires n <= |earlier.ledger| && n <= |now.ledger|
    requires HashBefore(earlier.ledger, n) == HashBefore(now.ledger, n)
    ensures forall i :: 0 <= i < n ==> SameEvent(c, earlier.ledger[i], now.ledger[i])
  {
    if n > 0 {
      assert RowOk(c, earlier, n - 1) && RowOk(c, now, n - 1);
      SameHashSameEvent(c, earlier.ledger[n - 1], now.ledger[n - 1], n - 1,
                        HashBefore(earlier.ledger, n - 1), HashBefore(now.ledger, n - 1));
      ChainPinned(c, earlier, now, n - 1);
    }
  }

  lemma SameHashSameEvent(c: Codec, a: Row, b: Row, n: nat, pa: string, pb: string)
    requires Injective(c) && Chained(c, a, n, pa) && Chained(c, b, n, pb) && a.eventHash == b.eventHash
    ensures SameEvent(c, a, b) && pa == pb
  {
    assert FieldsOf(a, PayloadOf(c, a).value) == FieldsOf(b, PayloadOf(c, b).value);
  }

  // A checkpoint pins history: if it is still accepted, the ledger that was checkpointed is,
  // event for event, a prefix of the current one.
  lemma CheckpointPinsHistory(c: Codec, earlier: Db, now: Db, ledgerId: string, authentic: bool)
    requires Injective(c) && Verified(c, earlier)
    requires CheckpointAccepts(c, now, ledgerId, AnchorOf(earlier, ledgerId), authentic)
    ensures |earlier.ledger| <= |now.ledger|
    ensures forall i :: 0 <= i < |earlier.ledger| ==> SameEvent(c, earlier.ledger[i], now.ledger[i])
  {
    hide Linked, Covered;
    ChainPinned(c, earlier, now, |earlier.ledger|);
  }

  // Every continuation of a verified ledger by writes still verifies against its anchor.
  lemma ContinuationAccepted(c: Codec, db: Db, ws: seq<Write>, ledgerId: string, n: nat)
    requires RoundTrips(c) && Verified(c, db) && UniqueIds(db.ledger) && LegacyPrefix(db.ledger, n)
    ensures CheckpointAccepts(c, WrittenAll(c, db, ws), ledgerId, AnchorOf(db, ledgerId), true)
  {
    hide Verified, UniqueIds, LegacyPrefix;
    WritesKeep(c, db, ws, n);
    var after := WrittenAll(c, db, ws);
    if db.ledger != [] {
      assert after.ledger[|db.ledger| - 1] == db.ledger[|db.ledger| - 1];
    }
  }

  // ---- what the chain does not pin: the spelling of payload_json ----

  ghost predicate PinsText(c: Codec) {
    forall earlier, now :: Verified(c, earlier) && CheckpointAccepts(c, now, "", AnchorOf(earlier, ""), true)
      ==> earlier.ledger <= now.ledger
  }

  // No two texts spell the same payload.
  ghost predicate OneSpelling(c: Codec) {
    forall a, b :: c.parse(a).Some? && c.parse(a) == c.parse(b) ==> a == b
  }

  function OneRowDb(c: Codec, text: string): Db
    requires c.parse(text).Some?
  {
    var p := c.parse(text).value;
    var draft := Row(1, ZERO, "command_audit", c.join(p.key), p.event, p.actor, Links(None, None, None),
                     p.occurredAt, text, false, "");
    Db([draft.(eventHash := c.hash(FieldsOf(draft, p)))], map["command_audit" := map[p.key := p]])
  }

  lemma OneRowVerifies(c: Codec, text: string)
    requires c.parse(text).Some?
    ensures Verified(c, OneRowDb(c, text))
  {
    var db := OneRowDb(c, text);
    assert RowOk(c, db, 0);
    assert CountSource(db.ledger, "command_audit", 1) == 1;
  }

  // Because the hash reads the parsed payload, accepted checkpoints pin the stored text of all ledgers exactly
  // when JSON has one spelling per value, which real JSON text has not.
  lemma AllTextPinnedExactly(c: Codec)
    requires Injective(c)
    ensures PinsText(c) <==> OneSpelling(c)
  {
    if OneSpelling(c) {
      forall earlier, now | Verified(c, earlier) && CheckpointAccepts(c, now, "", AnchorOf(earlier, ""), true)
        ensures earlier.ledger <= now.ledger
      {
        CheckpointPinsHistory(c, earlier, now, "", true);
        forall i | 0 <= i < |earlier.ledger| ensures earlier.ledger[i] == now.ledger[i] {
          assert SameEvent(c, earlier.ledger[i], now.ledger[i]);
          assert RowOk(c, earlier, i);
        }
      }
    }
    if PinsText(c) {
      forall a, b | c.parse(a).Some? && c.parse(a) == c.parse(b) ensures a == b {
        OneRowVerifies(c, a);
        OneRowVerifies(c, b);
        var da, db := OneRowDb(c, a), OneRowDb(c, b);
        assert CheckpointAccepts(c, db, "", AnchorOf(da, ""), true);
        assert da.ledger[0] == db.ledger[0];
      }
    }
  }

  // The stored text is the one that writers render for its payload.
  predicate Rendered(c: Codec, r: Row) {
    PayloadOf(c, r).Some? && r.payloadText == c.render(PayloadOf(c, r).value)
  }

  ghost predicate AllRendered(c: Codec, ledger: seq<Row>) {
    forall i :: 0 <= i < |ledger| ==> Rendered(c, ledger[i])
  }

  // For one ledger: an accepted checkpoint of rendered rows means a prefix letter for letter exactly when the
  // current rows that it covers are rendered too, which a reader of the current ledger can see.
  lemma TextPinnedExactly(c: Codec, earlier: Db, now: Db, ledgerId: string, authentic: bool)
    requires Injective(c) && Verified(c, earlier) && AllRendered(c, earlier.ledger)
    requires CheckpointAccepts(c, now, ledgerId, AnchorOf(earlier, ledgerId), authentic)
    ensures |earlier.ledger| <= |now.ledger|
    ensures earlier.ledger <= now.ledger <==> AllRendered(c, now.ledger[..|earlier.ledger|])
  {
    hide Verified, CheckpointAccepts;
    CheckpointPinsHistory(c, earlier, now, ledgerId, authentic);
    var n := |earlier.ledger|;
    if AllRendered(c, now.ledger[..n]) {
      forall i | 0 <= i < n ensures earlier.ledger[i] == now.ledger[i] {
        assert SameEvent(c, earlier.ledger[i], now.ledger[i]);
        assert Rendered(c, now.ledger[..n][i]);
      }
    }
    if earlier.ledger <= now.ledger { assert now.ledger[..n] == earlier.ledger; }
  }

  lemma {:induction false} ImportRendered(c: Codec, rows: seq<Import>)
    requires RoundTrips(c)
    ensures AllRendered(c, Imported(c, rows))
  {
    if rows != [] { ImportRendered(c, rows[..|rows| - 1]); }
  }

  lemma {:induction false} WritesRendered(c: Codec, db: Db, ws: seq<Write>)
    requires RoundTrips(c) && AllRendered(c, db.ledger)
    ensures AllRendered(c, WrittenAll(c, db, ws).ledger)
  {
    hide InsertRefused;
    if ws != [] { WritesRendered(c, db, ws[..|ws| - 1]); }
  }

  // The ledgers of the service hold only rendered rows, so its checkpoints pin history letter for letter
  // exactly while the covered rows stay rendered.
  lemma BuiltTextPinnedExactly(c: Codec, rows: seq<Import>, tables: map<string, Table>, ws: seq<Write>, now: Db, ledgerId: string)
    requires Injective(c) && RoundTrips(c) && Enumerates(c, rows, tables)
    requires CheckpointAccepts(c, now, ledgerId, AnchorOf(WrittenAll(c, Db(Imported(c, rows), tables), ws), ledgerId), true)
    ensures var earlier := WrittenAll(c, Db(Imported(c, rows), tables), ws).ledger;
      |earlier| <= |now.ledger| && (earlier <= now.ledger <==> AllRendered(c, now.ledger[..|earlier|]))
  {
    hide Verified, CheckpointAccepts, AllRendered;
    var db := Db(Imported(c, rows), tables);
    BuiltLedgerVerifies(c, rows, tables, ws);
    ImportRendered(c, rows);
    WritesRendered(c, db, ws);
    TextPinnedExactly(c, WrittenAll(c, db, ws), now, ledgerId, true);
  }
}
