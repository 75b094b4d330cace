// What every transfer request keeps: the structural invariant that ties sessions, chunks and
// artifacts together, and all budgets at once.
module TransferInvariants {
  import opened Aggregates
  import opened Transfers

  ghost predicate SessionOk(s: Store, id: string)
    requires id in s.sessions
  {
    var r := s.sessions[id];
    && r.manifest.artifactId == id
    && r.agentId == r.manifest.agentId
    && r.commandId == r.manifest.commandId
    && r.received <= r.manifest.contentBytes
    && (r.phase == Open ==>
          (r.received % CHUNK_BYTES == 0 || r.received == r.manifest.contentBytes) && id !in s.artifacts)
    && (r.phase == Complete ==>
          r.received == r.manifest.contentBytes
          && AttestedBy(s, id).Some? && AttestedBy(s, id).value.manifest == r.manifest)
    && (r.phase == Expired ==> r.received == 0)
  }

  // The stored chunks of the OPEN sessions are exactly the frames 0, 64K, 128K, ... below
  // received, each with its forced length; no other session has chunks.
  ghost predicate FramesOk(s: Store) {
    && (forall f :: f in s.chunks ==>
          && f.0 in s.sessions && s.sessions[f.0].phase == Open
          && f.1 % CHUNK_BYTES == 0 && f.1 < s.sessions[f.0].received
          && |s.chunks[f]| == FrameLength(s.sessions[f.0].manifest.contentBytes, f.1))
    && (forall id, off: nat ::
          (id in s.sessions && s.sessions[id].phase == Open
           && off % CHUNK_BYTES == 0 && off < s.sessions[id].received) ==> (id, off) in s.chunks)
  }

  ghost predicate ArtifactOk(cfg: Config, s: Store, id: string)
    requires id in s.artifacts
  {
    var a := s.artifacts[id];
    a.attested.Some? ==>
      var m := a.attested.value.manifest;
      m.artifactId == id && a.commandId == m.commandId && a.agentId == m.agentId && Decodes(cfg, m, a.content)
  }

  ghost predicate Structure(cfg: Config, s: Store) {
    && (forall id :: id in s.sessions ==> SessionOk(s, id))
    && (forall id :: id in s.artifacts ==> ArtifactOk(cfg, s, id))
    && FramesOk(s)
  }

  ghost predicate Inv(cfg: Config, s: Store) {
    Structure(cfg, s) && WithinBudget(cfg, s)
  }

  // The database as migration 29 leaves it: retained evidence within budget, no sessions yet.
  ghost predicate Initial(cfg: Config, s: Store) {
    && s.sessions == map[] && s.chunks == map[]
    && (forall id :: id in s.artifacts ==> ArtifactOk(cfg, s, id))
    && RetainedCount(s) <= MAX_GLOBAL_COUNT
    && RetainedBytes(s) <= cfg.quota
    && (forall c :: SumOf(s.artifacts, RetainedOne(c)) <= MAX_COMMAND_COUNT)
    && (forall c :: SumOf(s.artifacts, RetainedSize(c)) <= MAX_COMMAND_BYTES)
  }

  lemma InitialInv(cfg: Config, s: Store)
    requires Initial(cfg, s)
    ensures Inv(cfg, s)
  {
    assert forall f: Session -> nat :: Weights(s.sessions, f) == map[];
  }

  // ---- expiry ----

  lemma ExpireStructure(cfg: Config, s: Store, now: int)
    requires Structure(cfg, s)
    ensures Structure(cfg, Expire(s, now))
  {
  }

  lemma ExpireBudget(cfg: Config, s: Store, now: int)
    requires WithinBudget(cfg, s)
    ensures WithinBudget(cfg, Expire(s, now))
  {
    hide SumOf;
    var t := Expire(s, now);
    assert s.sessions.Keys == t.sessions.Keys;
    assert |s.sessions| == |s.sessions.Keys| && |t.sessions| == |t.sessions.Keys|;
    SumOfMono(s.sessions, t.sessions, OpenOne);
    SumOfMono(s.sessions, t.sessions, OpenSize);
    forall a ensures AgentBudget(t, a) {
      assert AgentBudget(s, a);
      SumOfMono(s.sessions, t.sessions, AgentOne(a));
    }
    forall c ensures CommandBudget(t, c) {
      assert CommandBudget(s, c);
      SumOfMono(s.sessions, t.sessions, CommandOne(c));
      SumOfMono(s.sessions, t.sessions, CommandSize(c));
    }
  }

  lemma ExpireInv(cfg: Config, s: Store, now: int)
    requires Inv(cfg, s)
    ensures Inv(cfg, Expire(s, now))
  {
    ExpireStructure(cfg, s, now);
    ExpireBudget(cfg, s, now);
  }

  // ---- single-row changes and the budgets ----

  // What replacing or inserting one session row does to every aggregate over sessions.
  lemma SetSession(s: Store, id: string, row: Session, t: Store)
    requires t.sessions == s.sessions[id := row] && t.artifacts == s.artifacts
    ensures OpenCount(t) == OpenCount(s) - (if id in s.sessions then OpenOne(s.sessions[id]) else 0) + OpenOne(row)
    ensures OpenBytes(t) == OpenBytes(s) - (if id in s.sessions then OpenSize(s.sessions[id]) else 0) + OpenSize(row)
    ensures |t.sessions| == |s.sessions| + (if id in s.sessions then 0 else 1)
  {
    SumOfSet(s.sessions, id, row, OpenOne);
    SumOfSet(s.sessions, id, row, OpenSize);
    assert t.sessions.Keys == s.sessions.Keys + {id};
    assert |t.sessions| == |t.sessions.Keys| && |s.sessions| == |s.sessions.Keys|;
  }

  lemma SetSessionAgent(s: Store, id: string, row: Session, t: Store, a: string)
    requires t.sessions == s.sessions[id := row]
    ensures AgentOpen(t, a) ==
            AgentOpen(s, a) - (if id in s.sessions then AgentOne(a)(s.sessions[id]) else 0) + AgentOne(a)(row)
  {
    SumOfSet(s.sessions, id, row, AgentOne(a));
  }

  lemma SetSessionCommand(s: Store, id: string, row: Session, t: Store, c: string)
    requires t.sessions == s.sessions[id := row] && t.artifacts == s.artifacts
    ensures CommandCount(t, c) ==
            CommandCount(s, c) - (if id in s.sessions then CommandOne(c)(s.sessions[id]) else 0) + CommandOne(c)(row)
    ensures CommandBytes(t, c) ==
            CommandBytes(s, c) - (if id in s.sessions then CommandSize(c)(s.sessions[id]) else 0) + CommandSize(c)(row)
  {
    SumOfSet(s.sessions, id, row, CommandOne(c));
    SumOfSet(s.sessions, id, row, CommandSize(c));
  }

  // A row that is OPEN only if the row it replaces was, for the same owner and manifest, adds nothing.
  lemma NoNewReservation(cfg: Config, s: Store, id: string, row: Session, t: Store)
    requires WithinBudget(cfg, s) && id in s.sessions
    requires row.phase == Open ==> row == s.sessions[id].(received := row.received)
    requires t.sessions == s.sessions[id := row] && t.artifacts == s.artifacts
    ensures WithinBudget(cfg, t)
  {
    hide SumOf;
    SetSession(s, id, row, t);
    forall a ensures AgentBudget(t, a) {
      assert AgentBudget(s, a);
      SetSessionAgent(s, id, row, t, a);
    }
    forall c ensures CommandBudget(t, c) {
      assert CommandBudget(s, c);
      SetSessionCommand(s, id, row, t, c);
    }
  }

  // A reservation that passed _reserve keeps every budget.
  lemma ReserveKeepsBudget(cfg: Config, s: Store, id: string, row: Session, t: Store)
    requires WithinBudget(cfg, s)
    requires id in s.sessions ==> s.sessions[id].phase != Open
    requires row.phase == Open && row.agentId == row.manifest.agentId && row.commandId == row.manifest.commandId
    requires ReserveFits(cfg, s, row.manifest, id in s.sessions)
    requires t.sessions == s.sessions[id := row] && t.artifacts == s.artifacts
    ensures WithinBudget(cfg, t)
  {
    hide SumOf;
    SetSession(s, id, row, t);
    forall a ensures AgentBudget(t, a) {
      assert AgentBudget(s, a);
      SetSessionAgent(s, id, row, t, a);
    }
    forall c ensures CommandBudget(t, c) {
      assert CommandBudget(s, c);
      SetSessionCommand(s, id, row, t, c);
    }
  }

  // Retaining bytes that passed the test of retain keeps every budget.
  lemma RetainKeepsBudget(cfg: Config, s: Store, id: string, a: Artifact, t: Store)
    requires WithinBudget(cfg, s) && id !in s.artifacts
    requires RetainFits(cfg, s, a.commandId, |a.content|)
    requires t.artifacts == s.artifacts[id := a] && t.sessions == s.sessions
    ensures WithinBudget(cfg, t)
  {
    hide SumOf;
    SumOfSet(s.artifacts, id, a, ArtifactOne);
    SumOfSet(s.artifacts, id, a, ArtifactSize);
    forall g ensures AgentBudget(t, g) {
      assert AgentBudget(s, g);
    }
    forall c ensures CommandBudget(t, c) {
      assert CommandBudget(s, c);
      SumOfSet(s.artifacts, id, a, RetainedOne(c));
      SumOfSet(s.artifacts, id, a, RetainedSize(c));
    }
  }

  // A reservation is a guarantee: once it is released, the same bytes fit again, whatever else
  // the other sessions and uploads have reserved meanwhile.
  lemma ReservationIsGuarantee(cfg: Config, s: Store, id: string)
    requires WithinBudget(cfg, s) && id in s.sessions && s.sessions[id].phase == Open
    ensures RetainFits(cfg, Released(s, id), s.sessions[id].commandId, s.sessions[id].manifest.contentBytes)
  {
    hide SumOf;
    var r := s.sessions[id];
    var row := r.(phase := Complete);
    SetSession(s, id, row, Released(s, id));
    SetSessionCommand(s, id, row, Released(s, id), r.commandId);
    assert CommandBudget(s, r.commandId);
  }

  // ---- assembly ----

  lemma {:induction false} AssembledLength(s: Store, id: string, n: nat)
    requires FramesOk(s) && id in s.sessions && s.sessions[id].phase == Open
    requires n == 0 || (n - 1) * CHUNK_BYTES < s.sessions[id].received
    requires s.sessions[id].received <= s.sessions[id].manifest.contentBytes
    ensures |Assembled(s.chunks, id, n)| == Min(n * CHUNK_BYTES, s.sessions[id].manifest.contentBytes)
  {
    if n > 0 {
      AssembledLength(s, id, n - 1);
      var off := (n - 1) * CHUNK_BYTES;
      assert off % CHUNK_BYTES == 0;
      assert (id, off) in s.chunks;
    }
  }

  lemma AssembledWhole(s: Store, id: string)
    requires FramesOk(s) && id in s.sessions && s.sessions[id].phase == Open
    requires s.sessions[id].received == s.sessions[id].manifest.contentBytes
    ensures |Assembled(s.chunks, id, FrameCount(s.sessions[id].manifest.contentBytes))|
            == s.sessions[id].manifest.contentBytes
  {
    AssembledLength(s, id, FrameCount(s.sessions[id].manifest.contentBytes));
  }

  // ---- each operation keeps the invariant ----

  lemma RetainSignedInv(cfg: Config, s: Store, e: Env, agentId: string, commandId: string,
                        m: Manifest, content: Bytes, admitted: Option<int>)
    requires Inv(cfg, s)
    ensures var r := RetainSigned(cfg, s, e, agentId, commandId, m, content, admitted); Inv(cfg, r.after)
  {
    hide WithinBudget;
    var t := RetainSigned(cfg, s, e, agentId, commandId, m, content, admitted).after;
    var id := m.artifactId;
    if t != s {
      RetainKeepsBudget(cfg, s, id, t.artifacts[id], t);
      RetainStructure(cfg, s, id, t.artifacts[id], t);
    }
  }

  lemma RetainStructure(cfg: Config, s: Store, id: string, a: Artifact, t: Store)
    requires Structure(cfg, s) && id !in s.artifacts
    requires id in s.sessions ==> s.sessions[id].phase != Open
    requires t == s.(artifacts := s.artifacts[id := a]) && ArtifactOk(cfg, t, id)
    ensures Structure(cfg, t)
  {
    forall i | i in t.sessions ensures SessionOk(t, i) { assert SessionOk(s, i); }
    forall i | i in t.artifacts ensures ArtifactOk(cfg, t, i) { if i != id { assert ArtifactOk(cfg, s, i); } }
  }

  lemma AdmitInv(cfg: Config, s0: Store, e: Env, agentId: string, commandId: string, m: Manifest)
    requires Inv(cfg, s0)
    ensures Inv(cfg, Admit(cfg, s0, e, agentId, commandId, m).after)
  {
    hide WithinBudget, FramesOk, ReserveFits;
    var s := Expire(s0, e.now);
    ExpireInv(cfg, s0, e.now);
    var t := Admit(cfg, s0, e, agentId, commandId, m).after;
    if t != s && t != s0 {
      var id := m.artifactId;
      if id in s.sessions { assert SessionOk(s, id); }
      ReserveKeepsBudget(cfg, s, id, t.sessions[id], t);
      OpenStructure(cfg, s, id, t.sessions[id], t);
    }
  }

  lemma OpenStructure(cfg: Config, s: Store, id: string, row: Session, t: Store)
    requires Structure(cfg, s) && id !in s.artifacts
    requires id in s.sessions ==> s.sessions[id].phase != Open
    requires t == s.(sessions := s.sessions[id := row]) && SessionOk(t, id) && row.received == 0
    ensures Structure(cfg, t)
  {
    forall i | i in t.sessions ensures SessionOk(t, i) { if i != id { assert SessionOk(s, i); } }
    forall i | i in t.artifacts ensures ArtifactOk(cfg, t, i) { assert ArtifactOk(cfg, s, i); }
  }

  // A chunk request changes nothing, or places exactly the next frame of an open session.
  lemma PutChunkCases(cfg: Config, s: Store, e: Env, agentId: string, commandId: string,
                      id: string, offset: int, digest: string, data: Bytes)
    requires Inv(cfg, s)
    ensures var t := PutChunk(cfg, s, e, agentId, commandId, id, offset, digest, data).after;
      t == s ||
      (id in s.sessions && s.sessions[id].phase == Open && offset == s.sessions[id].received
       && ChunkFits(s.sessions[id].manifest.contentBytes, offset, data) && t == Extended(s, id, offset, data))
  {
    hide Inv, Extended, KeyCheck, Binding;
  }

  lemma PutChunkInv(cfg: Config, s: Store, e: Env, agentId: string, commandId: string,
                    id: string, offset: int, digest: string, data: Bytes)
    requires Inv(cfg, s)
    ensures Inv(cfg, PutChunk(cfg, s, e, agentId, commandId, id, offset, digest, data).after)
  {
    hide Inv, PutChunk, ChunkFits, Extended;
    PutChunkCases(cfg, s, e, agentId, commandId, id, offset, digest, data);
    if PutChunk(cfg, s, e, agentId, commandId, id, offset, digest, data).after != s { ExtendedInv(cfg, s, id, offset, data); }
  }

  lemma ExtendedInv(cfg: Config, s: Store, id: string, offset: nat, data: Bytes)
    requires Inv(cfg, s) && id in s.sessions && s.sessions[id].phase == Open && offset == s.sessions[id].received
    requires ChunkFits(s.sessions[id].manifest.contentBytes, offset, data)
    ensures Inv(cfg, Extended(s, id, offset, data))
  {
    hide WithinBudget, FramesOk, SessionOk, ArtifactOk, ChunkFits;
    var t := Extended(s, id, offset, data);
    NoNewReservation(cfg, s, id, t.sessions[id], t);
    PutChunkFrames(s, id, offset, data, t);
    forall i | i in t.sessions ensures SessionOk(t, i) { ExtendedSession(s, id, offset, data, i); }
    forall i | i in t.artifacts ensures ArtifactOk(cfg, t, i) { SameArtifact(cfg, s, t, i); }
  }

  lemma ExtendedSession(s: Store, id: string, offset: nat, data: Bytes, i: string)
    requires id in s.sessions && s.sessions[id].phase == Open && offset == s.sessions[id].received
    requires ChunkFits(s.sessions[id].manifest.contentBytes, offset, data) && i in s.sessions && SessionOk(s, i)
    ensures SessionOk(Extended(s, id, offset, data), i)
  {
  }

  lemma SameArtifact(cfg: Config, s: Store, t: Store, i: string)
    requires i in s.artifacts && i in t.artifacts && t.artifacts[i] == s.artifacts[i] && ArtifactOk(cfg, s, i)
    ensures ArtifactOk(cfg, t, i)
  {
  }

  // Two frame offsets less than a frame apart are the same offset.
  lemma SameFrame(a: nat, b: nat)
    requires a % CHUNK_BYTES == 0 && b % CHUNK_BYTES == 0 && a <= b < a + CHUNK_BYTES
    ensures a == b
  {
  }

  // Accepting the next frame extends the run of frames by exactly one.
  lemma PutChunkFrames(s: Store, id: string, offset: nat, data: Bytes, t: Store)
    requires FramesOk(s) && id in s.sessions && s.sessions[id].phase == Open
    requires offset == s.sessions[id].received && ChunkFits(s.sessions[id].manifest.contentBytes, offset, data)
    requires t == s.(chunks := s.chunks[(id, offset) := data],
                     sessions := s.sessions[id := s.sessions[id].(received := offset + |data|)])
    ensures FramesOk(t)
  {
    forall i, off: nat | i in t.sessions && t.sessions[i].phase == Open
                         && off % CHUNK_BYTES == 0 && off < t.sessions[i].received
      ensures (i, off) in t.chunks
    {
      if i == id && off >= offset {
        SameFrame(offset, off);
      } else {
        assert (i, off) in s.chunks;
      }
    }
    forall f | f in t.chunks
      ensures f.0 in t.sessions && t.sessions[f.0].phase == Open
      ensures f.1 % CHUNK_BYTES == 0 && f.1 < t.sessions[f.0].received
      ensures |t.chunks[f]| == FrameLength(t.sessions[f.0].manifest.contentBytes, f.1)
    {
      if f != (id, offset) {
        assert f in s.chunks;
      }
    }
  }

  lemma ReleaseStructure(cfg: Config, s: Store, id: string, a: Artifact, t: Store)
    requires Structure(cfg, s)
    requires id in s.sessions && s.sessions[id].phase == Open
    requires s.sessions[id].received == s.sessions[id].manifest.contentBytes
    requires t == Store(Released(s, id).sessions, DropChunks(s.chunks, id), s.artifacts[id := a])
    requires ArtifactOk(cfg, t, id) && a.attested.Some? && a.attested.value.manifest == s.sessions[id].manifest
    ensures Structure(cfg, t)
  {
    hide FramesOk, ArtifactOk;
    forall i | i in t.sessions ensures SessionOk(t, i) { assert SessionOk(s, i); }
    forall i | i in t.artifacts ensures ArtifactOk(cfg, t, i) { if i != id { SameArtifact(cfg, s, t, i); } }
    ReleaseFrames(s, id, t);
  }

  lemma ReleaseFrames(s: Store, id: string, t: Store)
    requires FramesOk(s) && id in s.sessions && s.sessions[id].phase == Open
    requires t.sessions == Released(s, id).sessions && t.chunks == DropChunks(s.chunks, id)
    ensures FramesOk(t)
  {
  }

  lemma CompleteInv(cfg: Config, s: Store, e: Env, agentId: string, commandId: string, id: string, d: string)
    requires Inv(cfg, s)
    ensures Inv(cfg, CompleteTransfer(cfg, s, e, agentId, commandId, id, d).after)
  {
    hide WithinBudget, FramesOk, RetainFits;
    var t := CompleteTransfer(cfg, s, e, agentId, commandId, id, d).after;
    if t != s && id in s.sessions {
      assert SessionOk(s, id);
      var mid := Released(s, id);
      NoNewReservation(cfg, s, id, mid.sessions[id], mid);
      RetainKeepsBudget(cfg, mid, id, t.artifacts[id], t);
      ReleaseStructure(cfg, s, id, t.artifacts[id], t);
    }
  }

  lemma ActInv(cfg: Config, s: Store, op: Op)
    requires Inv(cfg, s)
    ensures Inv(cfg, Act(cfg, s, op).after)
  {
    hide Inv, Admit, PutChunk, CompleteTransfer, RetainSigned;
    match op
    case AdmitOp(e, a, c, m) => AdmitInv(cfg, s, e, a, c, m);
    case ChunkOp(e, a, c, id, off, d, data) => PutChunkInv(cfg, s, e, a, c, id, off, d, data);
    case CompleteOp(e, a, c, id, d) => CompleteInv(cfg, s, e, a, c, id, d);
    case UploadOp(e, a, c, m, content) => RetainSignedInv(cfg, s, e, a, c, m, content, None);
  }

  lemma HandleInv(cfg: Config, s: Store, op: Op)
    requires Inv(cfg, s)
    ensures Inv(cfg, Handle(cfg, s, op).after)
  {
    hide Inv;
    ActInv(cfg, s, op);
    ExpireInv(cfg, s, op.env.now);
  }

  // Every reachable state keeps the structure and all budgets, for every mix of requests.
  lemma {:induction false} RunInv(cfg: Config, s: Store, ops: seq<Op>)
    requires Initial(cfg, s) || Inv(cfg, s)
    ensures Inv(cfg, Run(cfg, s, ops))
  {
    if ops == [] {
      if Initial(cfg, s) { InitialInv(cfg, s); }
    } else {
      RunInv(cfg, s, ops[..|ops| - 1]);
      HandleInv(cfg, Run(cfg, s, ops[..|ops| - 1]), ops[|ops| - 1]);
    }
  }
}
