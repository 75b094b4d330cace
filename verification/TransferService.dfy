// The transfer tables as the service updates them: rows change in place and SQLite triggers keep the
// usage counters. Every method is proved equal to the corresponding step of Transfers.dfy, which knows
// no counters; Valid says that the counters are the true sums.
module TransferService {
  import opened Aggregates
  import opened Transfers
  import opened TransferInvariants

  // The sweep applied to some of the sessions.
  ghost function ExpireRows(s: Store, done: set<string>): Store {
    s.(sessions := map id | id in s.sessions ::
         if id in done then s.sessions[id].(phase := Expired, received := 0) else s.sessions[id],
       chunks := map f | f in s.chunks && f.0 !in done :: s.chunks[f])
  }

  class Database {
    var sessions: map<string, Session>
    var chunks: map<(string, nat), Bytes>
    var artifacts: map<string, Artifact>
    // response_artifact_transfer_usage
    var reservedBytes: int
    var openSessions: int
    var totalSessions: int
    // response_artifact_usage
    var retainedBytes: int
    var retainedCount: int

    ghost function Tables(): Store
      reads this
    {
      Store(sessions, chunks, artifacts)
    }

    // The trigger-kept counters are the true sums and counts.
    ghost predicate CountersAgree()
      reads this
    {
      && reservedBytes == OpenBytes(Tables())
      && openSessions == OpenCount(Tables())
      && totalSessions == |sessions|
      && retainedBytes == RetainedBytes(Tables())
      && retainedCount == RetainedCount(Tables())
    }

    ghost predicate Valid(cfg: Config)
      reads this
    {
      Inv(cfg, Tables()) && CountersAgree()
    }

    // Migration 29 on a database whose evidence is within budget.
    constructor (cfg: Config, evidence: map<string, Artifact>, usedBytes: nat, used: nat)
      requires Initial(cfg, Store(map[], map[], evidence))
      requires usedBytes == SumOf(evidence, ArtifactSize) && used == SumOf(evidence, ArtifactOne)
      ensures Valid(cfg) && Tables() == Store(map[], map[], evidence)
    {
      sessions, chunks, artifacts := map[], map[], evidence;
      reservedBytes, openSessions, totalSessions := 0, 0, 0;
      retainedBytes, retainedCount := usedBytes, used;
      new;
      InitialInv(cfg, Tables());
      assert Weights(sessions, OpenOne) == map[] && Weights(sessions, OpenSize) == map[];
    }

    // INSERT or UPDATE of one session row, with triggers artifact_transfer_usage_insert and _state.
    method WriteSession(id: string, row: Session)
      requires CountersAgree()
      modifies `sessions, `reservedBytes, `openSessions, `totalSessions
      ensures sessions == old(sessions)[id := row]
      ensures CountersAgree()
    {
      hide SumOf;
      SetSession(Tables(), id, row, Store(sessions[id := row], chunks, artifacts));
      if id in sessions {
        reservedBytes := reservedBytes - OpenSize(sessions[id]) + OpenSize(row);
        openSessions := openSessions - OpenOne(sessions[id]) + OpenOne(row);
      } else {
        reservedBytes := reservedBytes + OpenSize(row);
        openSessions := openSessions + OpenOne(row);
        totalSessions := totalSessions + 1;
      }
      sessions := sessions[id := row];
    }

    // INSERT of one artifact row, with trigger response_artifact_usage_insert.
    method InsertArtifact(id: string, a: Artifact)
      requires CountersAgree() && id !in artifacts
      modifies `artifacts, `retainedBytes, `retainedCount
      ensures artifacts == old(artifacts)[id := a]
      ensures CountersAgree()
    {
      SumOfSet(artifacts, id, a, ArtifactOne);
      SumOfSet(artifacts, id, a, ArtifactSize);
      artifacts := artifacts[id := a];
      retainedBytes := retainedBytes + |a.content|;
      retainedCount := retainedCount + 1;
    }

    // SELECT ... WHERE state='OPEN' AND expires_at<=? ORDER BY expires_at LIMIT 128.
    method DueRows(now: int) returns (rows: seq<string>)
      ensures forall i :: 0 <= i < |rows| ==> rows[i] in sessions && Due(sessions[rows[i]], now)
      ensures forall i, j :: 0 <= i < j < |rows| ==>
        rows[i] != rows[j] && sessions[rows[i]].expiresAt <= sessions[rows[j]].expiresAt
      ensures |rows| == MAX_OPEN
              || forall id :: id in sessions && Due(sessions[id], now) ==> id in rows
    {
      var table := sessions;
      var due := set id | id in sessions && Due(sessions[id], now);
      rows := OrderBy(due, (id: string) => if id in table then table[id].expiresAt else 0);
      forall i | 0 <= i < |rows| ensures rows[i] in sessions && Due(sessions[rows[i]], now) {
        assert rows[i] in rows;
      }
      if |rows| > MAX_OPEN { rows := rows[..MAX_OPEN]; }
    }

    // Expiring one session: its chunks go, its reservation is released.
    method ExpireOne(id: string, ghost s: Store, ghost done: set<string>)
      requires CountersAgree() && Tables() == ExpireRows(s, done)
      requires id in s.sessions && id !in done
      modifies `sessions, `chunks, `reservedBytes, `openSessions, `totalSessions
      ensures Tables() == ExpireRows(s, done + {id})
      ensures CountersAgree()
    {
      hide SumOf, CountersAgree;
      ClearChunks(id);
      WriteSession(id, sessions[id].(phase := Expired, received := 0));
      assert sessions == ExpireRows(s, done + {id}).sessions;
      assert chunks == ExpireRows(s, done + {id}).chunks;
    }

    // Since at most 128 sessions are OPEN, one limited pass is a complete sweep.
    method ExpireDue(now: int)
      requires CountersAgree() && OpenCount(Tables()) <= MAX_OPEN
      modifies `sessions, `chunks, `reservedBytes, `openSessions, `totalSessions
      ensures Tables() == Expire(old(Tables()), now)
      ensures forall id :: id in sessions ==> !Due(sessions[id], now)
      ensures CountersAgree()
    {
      hide SumOf, CountersAgree;
      ghost var s := Tables();
      var rows := DueRows(now);
      LimitCoversDue(s, now, rows);
      ghost var done: set<string> := {};
      assert ExpireRows(s, {}) == s;
      for i := 0 to |rows|
        invariant forall id :: id in done <==> id in rows[..i]
        invariant Tables() == ExpireRows(s, done)
        invariant CountersAgree()
      {
        ExpireOne(rows[i], s, done);
        done := done + {rows[i]};
      }
      SweepIsComplete(s, now, done, rows);
    }

    // The budget test of _reserve, on the counters and two queries.
    method Reserve(cfg: Config, m: Manifest, existing: bool) returns (fits: bool)
      requires CountersAgree()
      ensures fits <==> ReserveFits(cfg, Tables(), m, existing)
    {
      hide SumOf;
      var agent := Aggregate(sessions, AgentOne(m.agentId));
      var n1 := Aggregate(artifacts, RetainedOne(m.commandId));
      var n2 := Aggregate(sessions, CommandOne(m.commandId));
      var b1 := Aggregate(artifacts, RetainedSize(m.commandId));
      var b2 := Aggregate(sessions, CommandSize(m.commandId));
      fits := agent < MAX_AGENT_OPEN && openSessions < MAX_OPEN
              && (existing || totalSessions < MAX_GLOBAL_COUNT)
              && n1 + n2 < MAX_COMMAND_COUNT && b1 + b2 + m.contentBytes <= MAX_COMMAND_BYTES
              && retainedCount + openSessions < MAX_GLOBAL_COUNT
              && retainedBytes + reservedBytes + m.contentBytes <= cfg.quota;
    }

    // The budget test of retain.
    method Fits(cfg: Config, commandId: string, size: nat) returns (fits: bool)
      requires CountersAgree()
      ensures fits <==> RetainFits(cfg, Tables(), commandId, size)
    {
      hide SumOf;
      var n1 := Aggregate(artifacts, RetainedOne(commandId));
      var n2 := Aggregate(sessions, CommandOne(commandId));
      var b1 := Aggregate(artifacts, RetainedSize(commandId));
      var b2 := Aggregate(sessions, CommandSize(commandId));
      fits := n1 + n2 < MAX_COMMAND_COUNT && b1 + b2 + size <= MAX_COMMAND_BYTES
              && retainedCount + openSessions < MAX_GLOBAL_COUNT
              && retainedBytes + reservedBytes + size <= cfg.quota;
    }

    // SELECT content ... ORDER BY offset, concatenated.
    method ReadChunks(id: string) returns (content: Bytes)
      requires FramesOk(Tables()) && id in sessions && sessions[id].phase == Open
      requires sessions[id].received == sessions[id].manifest.contentBytes
      ensures content == Assembled(chunks, id, FrameCount(sessions[id].manifest.contentBytes))
    {
      var offsets := set f | f in chunks && f.0 == id :: f.1;
      var rows := OrderBy(offsets, (o: nat) => o);
      FramesInOrder(Tables(), id, rows);
      content := [];
      for i := 0 to |rows|
        invariant content == Assembled(chunks, id, i)
      {
        content := content + chunks[(id, rows[i])];
      }
    }

    // retain_signed; a refusal changes nothing.
    method RetainEvidence(cfg: Config, e: Env, agentId: string, commandId: string,
                          m: Manifest, content: Bytes, admitted: Option<int>) returns (outcome: Outcome)
      requires CountersAgree()
      modifies `artifacts, `retainedBytes, `retainedCount
      ensures Stepped(outcome, Tables()) ==
              RetainSigned(cfg, old(Tables()), e, agentId, commandId, m, content, admitted)
      ensures CountersAgree()
    {
      hide CountersAgree, SumOf, RetainFits;
      var id := m.artifactId;
      var prior := if id in artifacts then artifacts[id].attested else None;
      if prior.Some? && prior.value.manifest != m { return Refused(Conflict); }
      if prior.None? && id in artifacts { return Refused(Conflict); }
      var keyed := KeyCheck(e, agentId, m, if prior.Some? then Some(prior.value.verifiedAt) else admitted);
      if keyed.Some? { return Refused(keyed.value); }
      if !Decodes(cfg, m, content) { return Refused(Unprocessable); }
      var bound := Binding(e, commandId, m);
      if bound.Some? { return Refused(bound.value); }
      if id in sessions && sessions[id].phase == Open { return Refused(Conflict); }
      if id in artifacts {
        if artifacts[id].content != content { return Refused(Conflict); }
        if e.metadata.Some? { return Refused(e.metadata.value); }
        return Ok(Receipt(id, m.sha256));
      }
      var fits := Fits(cfg, commandId, |content|);
      if !fits { return Refused(BudgetExhausted); }
      if e.metadata.Some? { return Refused(e.metadata.value); }
      InsertArtifact(id, Artifact(agentId, commandId, content, Some(Attestation(m, e.now))));
      outcome := Ok(Receipt(id, m.sha256));
    }

    // POST .../artifacts/signed
    method Upload(cfg: Config, e: Env, agentId: string, commandId: string, m: Manifest, content: Bytes)
      returns (outcome: Outcome)
      requires Valid(cfg)
      modifies this
      ensures Valid(cfg)
      ensures Stepped(outcome, Tables()) == Handle(cfg, old(Tables()), UploadOp(e, agentId, commandId, m, content))
    {
      hide Inv, CountersAgree, RetainSigned;
      ghost var s := Tables();
      HandleInv(cfg, s, UploadOp(e, agentId, commandId, m, content));
      RefusalKeeps(cfg, s, e, agentId, commandId, m, content, None);
      outcome := RetainEvidence(cfg, e, agentId, commandId, m, content, None);
    }

    // POST .../artifact-transfers. The router answers a refusal with an expiry sweep of its own.
    method AdmitTransfer(cfg: Config, e: Env, agentId: string, commandId: string, m: Manifest)
      returns (outcome: Outcome)
      requires Valid(cfg)
      modifies this
      ensures Valid(cfg)
      ensures Stepped(outcome, Tables()) == Handle(cfg, old(Tables()), AdmitOp(e, agentId, commandId, m))
    {
      hide SumOf, Structure, RetainSigned, ReserveFits;
      ghost var s0 := Tables();
      HandleInv(cfg, s0, AdmitOp(e, agentId, commandId, m));
      ExpireDue(e.now);
      var bound := Binding(e, commandId, m);
      if bound.Some? { return Refused(bound.value); }
      var id := m.artifactId;
      var known := id in sessions;
      if known && sessions[id].manifest != m { return Refused(Conflict); }
      if id in artifacts && artifacts[id].attested.Some? {
        if artifacts[id].attested.value.manifest != m { return Refused(Conflict); }
        RetainedKeeps(cfg, Tables(), e, agentId, commandId, m, None);
        outcome := RetainEvidence(cfg, e, agentId, commandId, m, artifacts[id].content, None);
        if outcome.Ok? { outcome := Ok(Progress(m.contentBytes, true, None)); }
        return;
      }
      var live := known && sessions[id].phase == Open;
      var keyed := KeyCheck(e, agentId, m, if live then Some(sessions[id].admittedAt) else None);
      if keyed.Some? { return Refused(keyed.value); }
      if live { return Ok(Progress(sessions[id].received, false, Some(sessions[id].expiresAt))); }
      if known && sessions[id].phase == Complete { return Refused(Unavailable); }
      if id in artifacts { return Refused(Conflict); }
      var fits := Reserve(cfg, m, known);
      if !fits { return Refused(BudgetExhausted); }
      var expiry := e.now + SESSION_LIFETIME;
      if known {
        WriteSession(id, sessions[id].(phase := Open, received := 0, admittedAt := e.now, expiresAt := expiry));
      } else {
        WriteSession(id, Session(agentId, commandId, m, 0, Open, e.now, expiry));
      }
      outcome := Ok(Progress(0, false, Some(expiry)));
    }

    // PUT .../chunks/{offset}
    method ReceiveChunk(cfg: Config, e: Env, agentId: string, commandId: string,
                        id: string, offset: int, digest: string, data: Bytes) returns (outcome: Outcome)
      requires Valid(cfg)
      modifies this
      ensures Valid(cfg)
      ensures Stepped(outcome, Tables()) ==
              Handle(cfg, old(Tables()), ChunkOp(e, agentId, commandId, id, offset, digest, data))
    {
      hide SumOf, Structure, PutChunk;
      ghost var s := Tables();
      ghost var op := ChunkOp(e, agentId, commandId, id, offset, digest, data);
      HandleInv(cfg, s, op);
      outcome := ChunkStep(cfg, e, agentId, commandId, id, offset, digest, data);
      if outcome.Refused? {
        ExpireDue(e.now);
      }
    }

    method ChunkStep(cfg: Config, e: Env, agentId: string, commandId: string,
                     id: string, offset: int, digest: string, data: Bytes) returns (outcome: Outcome)
      requires CountersAgree()
      modifies `sessions, `chunks, `reservedBytes, `openSessions, `totalSessions
      ensures CountersAgree()
      ensures outcome.Refused? ==> Tables() == old(Tables())
      ensures Stepped(outcome, Tables()) ==
              PutChunk(cfg, old(Tables()), e, agentId, commandId, id, offset, digest, data)
    {
      hide SumOf, CountersAgree;
      var load := Load(e, agentId, commandId, id);
      if load.Some? { return Refused(load.value); }
      var row := sessions[id];
      var size := row.manifest.contentBytes;
      if |data| == 0 || |data| > CHUNK_BYTES || cfg.sha256(data) != digest { return Refused(Unprocessable); }
      if !ChunkFits(size, offset, data) { return Refused(Unprocessable); }
      if row.phase == Complete {
        if id in artifacts && offset + |data| <= |artifacts[id].content|
           && artifacts[id].content[offset..offset + |data|] == data {
          return Ok(Progress(size, true, None));
        }
        return Refused(Conflict);
      }
      if (id, offset) in chunks {
        if chunks[(id, offset)] != data { return Refused(Conflict); }
        return Ok(Progress(row.received, false, Some(row.expiresAt)));
      }
      if offset != row.received { return Refused(Conflict); }
      AddChunk(id, offset, data);
      WriteSession(id, row.(received := offset + |data|));
      outcome := Ok(Progress(offset + |data|, false, Some(row.expiresAt)));
    }

    method AddChunk(id: string, offset: nat, data: Bytes)
      modifies `chunks
      ensures chunks == old(chunks)[(id, offset) := data]
      ensures old(CountersAgree()) ==> CountersAgree()
    {
      chunks := chunks[(id, offset) := data];
    }

    method ClearChunks(id: string)
      modifies `chunks
      ensures chunks == DropChunks(old(chunks), id)
      ensures old(CountersAgree()) ==> CountersAgree()
    {
      chunks := DropChunks(chunks, id);
    }

    // _load
    method Load(e: Env, agentId: string, commandId: string, id: string) returns (refusal: Option<Refusal>)
      ensures refusal == LoadRefusal(Tables(), e, agentId, commandId, id)
    {
      if id !in sessions || sessions[id].agentId != agentId || sessions[id].commandId != commandId {
        return Some(NotFound);
      }
      var row := sessions[id];
      refusal := Binding(e, commandId, row.manifest);
      if refusal.Some? { return; }
      refusal := KeyCheck(e, agentId, row.manifest, Some(row.admittedAt));
      if refusal.Some? { return; }
      if row.phase == Expired || (row.phase == Open && row.expiresAt <= e.now) { return Some(Conflict); }
    }

    // POST .../complete
    method CompleteSession(cfg: Config, e: Env, agentId: string, commandId: string,
                           id: string, manifestDigest: string) returns (outcome: Outcome)
      requires Valid(cfg)
      modifies this
      ensures Valid(cfg)
      ensures Stepped(outcome, Tables()) ==
              Handle(cfg, old(Tables()), CompleteOp(e, agentId, commandId, id, manifestDigest))
    {
      hide SumOf, Structure, CompleteTransfer;
      ghost var s := Tables();
      ghost var op := CompleteOp(e, agentId, commandId, id, manifestDigest);
      HandleInv(cfg, s, op);
      assert Structure(cfg, s);
      outcome := CompleteStep(cfg, e, agentId, commandId, id, manifestDigest);
      if outcome.Refused? {
        ExpireDue(e.now);
      }
    }

    method CompleteStep(cfg: Config, e: Env, agentId: string, commandId: string,
                        id: string, manifestDigest: string) returns (outcome: Outcome)
      requires CountersAgree() && Structure(cfg, Tables())
      modifies this
      ensures CountersAgree()
      ensures outcome.Refused? ==> Tables() == old(Tables())
      ensures var r := CompleteTransfer(cfg, old(Tables()), e, agentId, commandId, id, manifestDigest);
        outcome == r.outcome && (outcome.Ok? ==> Tables() == r.after)
    {
      hide SumOf, CountersAgree, RetainSigned, FramesOk;
      ghost var s := Tables();
      if id in artifacts { assert ArtifactOk(cfg, s, id); }
      if id !in sessions {
        if id !in artifacts || artifacts[id].attested.None? { return Refused(NotFound); }
        var m := artifacts[id].attested.value.manifest;
        if cfg.manifestDigest(m) != manifestDigest { return Refused(Conflict); }
        RetainedKeeps(cfg, s, e, agentId, commandId, m, None);
        outcome := RetainEvidence(cfg, e, agentId, commandId, m, artifacts[id].content, None);
        return;
      }
      assert SessionOk(s, id);
      var load := Load(e, agentId, commandId, id);
      if load.Some? { return Refused(load.value); }
      var row := sessions[id];
      if cfg.manifestDigest(row.manifest) != manifestDigest { return Refused(Conflict); }
      if row.phase == Complete {
        if id !in artifacts || artifacts[id].attested.None? { return Refused(Unavailable); }
        if artifacts[id].attested.value.manifest != row.manifest { return Refused(Conflict); }
        RetainedKeeps(cfg, s, e, agentId, commandId, row.manifest, None);
        outcome := RetainEvidence(cfg, e, agentId, commandId, row.manifest, artifacts[id].content, None);
        return;
      }
      if row.received != row.manifest.contentBytes { return Refused(Conflict); }
      outcome := ReleaseAndRetain(cfg, e, agentId, commandId, id);
    }

    // The reservation is released first; a failed retention rolls the release back.
    method ReleaseAndRetain(cfg: Config, e: Env, agentId: string, commandId: string, id: string)
      returns (outcome: Outcome)
      requires CountersAgree() && FramesOk(Tables())
      requires id in sessions && sessions[id].phase == Open
      requires sessions[id].received == sessions[id].manifest.contentBytes
      modifies this
      ensures CountersAgree()
      ensures outcome.Refused? ==> Tables() == old(Tables())
      ensures var s := old(Tables()); var row := s.sessions[id];
        var content := Assembled(s.chunks, id, FrameCount(row.manifest.contentBytes));
        var r := RetainSigned(cfg, Released(s, id), e, agentId, commandId, row.manifest, content, Some(row.admittedAt));
        outcome == r.outcome && (outcome.Ok? ==> Tables() == r.after.(chunks := DropChunks(s.chunks, id)))
    {
      hide SumOf, CountersAgree, RetainSigned;
      var row := sessions[id];
      var content := ReadChunks(id);
      ghost var s := Tables();
      WriteSession(id, row.(phase := Complete));
      RefusalKeeps(cfg, Tables(), e, agentId, commandId, row.manifest, content, Some(row.admittedAt));
      outcome := RetainEvidence(cfg, e, agentId, commandId, row.manifest, content, Some(row.admittedAt));
      if outcome.Ok? {
        ClearChunks(id);
      } else {
        WriteSession(id, row);
        assert sessions == s.sessions;
      }
    }
  }

  lemma RefusalKeeps(cfg: Config, s: Store, e: Env, agentId: string, commandId: string,
                     m: Manifest, content: Bytes, admitted: Option<int>)
    ensures var r := RetainSigned(cfg, s, e, agentId, commandId, m, content, admitted);
      && (r.outcome.Refused? ==> r.after == s)
      && r.after.sessions == s.sessions && r.after.chunks == s.chunks
  {
    hide RetainFits;
  }

  // Answering from a retained artifact changes nothing.
  lemma RetainedKeeps(cfg: Config, s: Store, e: Env, agentId: string, commandId: string, m: Manifest, admitted: Option<int>)
    requires m.artifactId in s.artifacts
    ensures RetainSigned(cfg, s, e, agentId, commandId, m, s.artifacts[m.artifactId].content, admitted).after == s
  {
    hide RetainFits;
  }

  // With at most MAX_OPEN sessions OPEN, the limited query returns every due session.
  lemma LimitCoversDue(s: Store, now: int, rows: seq<string>)
    requires OpenCount(s) <= MAX_OPEN
    requires forall i :: 0 <= i < |rows| ==> rows[i] in s.sessions && Due(s.sessions[rows[i]], now)
    requires forall i, j :: 0 <= i < j < |rows| ==> rows[i] != rows[j]
    requires |rows| == MAX_OPEN || forall id :: id in s.sessions && Due(s.sessions[id], now) ==> id in rows
    ensures forall id :: id in s.sessions && Due(s.sessions[id], now) ==> id in rows
  {
    if |rows| == MAX_OPEN {
      var open := set id | id in s.sessions && s.sessions[id].phase == Open;
      SumOfCounts(s.sessions, open, OpenOne);
      var got := set i | 0 <= i < |rows| :: rows[i];
      DistinctSize(rows, got);
      assert got <= open;
      SameSizeSubset(got, open);
    }
  }

  lemma SweepIsComplete(s: Store, now: int, done: set<string>, rows: seq<string>)
    requires forall id :: id in done <==> id in rows
    requires forall id :: id in rows ==> id in s.sessions && Due(s.sessions[id], now)
    requires forall id :: id in s.sessions && Due(s.sessions[id], now) ==> id in rows
    ensures ExpireRows(s, done) == Expire(s, now)
    ensures forall id :: id in ExpireRows(s, done).sessions ==> !Due(ExpireRows(s, done).sessions[id], now)
  {
    assert ExpireRows(s, done).chunks == Expire(s, now).chunks;
  }

  // The sorted offsets of an OPEN session are 0, 64K, 128K, ...
  lemma {:induction false} FrameInOrder(s: Store, id: string, rows: seq<nat>, i: nat)
    requires FramesOk(s) && i < |rows|
    requires forall o :: o in rows <==> (id, o) in s.chunks
    requires forall a, b :: 0 <= a < b < |rows| ==> rows[a] < rows[b]
    ensures rows[i] == i * CHUNK_BYTES
  {
    assert (id, rows[i]) in s.chunks by { assert rows[i] in rows; }
    var o := i * CHUNK_BYTES;
    if i > 0 {
      FrameInOrder(s, id, rows, i - 1);
      assert rows[i - 1] < rows[i];
    }
    assert o <= rows[i];
    assert o % CHUNK_BYTES == 0;
    assert o in rows;
    var j :| 0 <= j < |rows| && rows[j] == o;
  }

  lemma FramesInOrder(s: Store, id: string, rows: seq<nat>)
    requires FramesOk(s) && id in s.sessions && s.sessions[id].phase == Open
    requires s.sessions[id].received == s.sessions[id].manifest.contentBytes
    requires forall o :: o in rows <==> (id, o) in s.chunks
    requires forall a, b :: 0 <= a < b < |rows| ==> rows[a] < rows[b]
    ensures |rows| == FrameCount(s.sessions[id].manifest.contentBytes)
    ensures forall i :: 0 <= i < |rows| ==> rows[i] == i * CHUNK_BYTES && (id, rows[i]) in s.chunks
  {
    forall i | 0 <= i < |rows| ensures rows[i] == i * CHUNK_BYTES && (id, rows[i]) in s.chunks {
      FrameInOrder(s, id, rows, i);
      assert rows[i] in rows;
    }
    var n := |rows|;
    assert (n * CHUNK_BYTES) % CHUNK_BYTES == 0;
    assert n * CHUNK_BYTES !in rows;
    assert s.sessions[id].manifest.contentBytes <= n * CHUNK_BYTES;
    if n > 0 { assert rows[n - 1] == (n - 1) * CHUNK_BYTES; }
  }
}
