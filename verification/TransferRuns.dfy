// What whole runs of transfer requests guarantee: completion never loses a reservation, retained
// bytes are the client's bytes, and a session can always be resumed to completion.
module TransferRuns {
  import opened Aggregates
  import opened Transfers
  import opened TransferInvariants

  // Some table outside this model answered the request with refusal r.
  ghost predicate Answers(e: Env, r: Refusal) {
    e.binding == Some(r) || e.metadata == Some(r) || exists t :: e.key(t) == Some(r)
  }

  // Completing never fails a budget check, in any state that keeps the invariant.
  lemma CompleteNeverExhausted(cfg: Config, s: Store, e: Env, agentId: string, commandId: string, id: string, d: string)
    requires Inv(cfg, s) && !Answers(e, BudgetExhausted)
    ensures CompleteTransfer(cfg, s, e, agentId, commandId, id, d).outcome != Refused(BudgetExhausted)
  {
    hide WithinBudget, FramesOk, RetainFits;
    if id in s.sessions {
      assert SessionOk(s, id);
      var row := s.sessions[id];
      if row.phase == Open && row.received == row.manifest.contentBytes {
        AssembledWhole(s, id);
        ReservationIsGuarantee(cfg, s, id);
      }
    } else if AttestedBy(s, id).Some? {
      assert ArtifactOk(cfg, s, id);
    }
  }

  // The "retention is unavailable" branches are unreachable.
  lemma NeverUnavailable(cfg: Config, s: Store, op: Op)
    requires Inv(cfg, s) && !Answers(op.env, Unavailable)
    ensures Handle(cfg, s, op).outcome != Refused(Unavailable)
  {
    hide WithinBudget, FramesOk, RetainFits, ReserveFits, Admit, CompleteTransfer;
    match op
    case AdmitOp(e, a, c, m) => AdmitAvailable(cfg, s, e, a, c, m);
    case ChunkOp(e, a, c, id, off, d, data) =>
    case CompleteOp(e, a, c, id, d) => CompleteAvailable(cfg, s, e, a, c, id, d);
    case UploadOp(e, a, c, m, content) =>
  }

  lemma AdmitAvailable(cfg: Config, s: Store, e: Env, a: string, c: string, m: Manifest)
    requires Inv(cfg, s) && !Answers(e, Unavailable)
    ensures Admit(cfg, s, e, a, c, m).outcome != Refused(Unavailable)
  {
    hide WithinBudget, FramesOk, RetainFits, ReserveFits;
    ExpireStructure(cfg, s, e.now);
    var t := Expire(s, e.now);
    if m.artifactId in t.sessions { assert SessionOk(t, m.artifactId); }
  }

  lemma CompleteAvailable(cfg: Config, s: Store, e: Env, a: string, c: string, id: string, d: string)
    requires Inv(cfg, s) && !Answers(e, Unavailable)
    ensures CompleteTransfer(cfg, s, e, a, c, id, d).outcome != Refused(Unavailable)
  {
    hide WithinBudget, FramesOk, RetainFits;
    if id in s.sessions { assert SessionOk(s, id); }
  }

  // Exactly when completing a fully received session succeeds, and what it leaves behind.
  lemma CompleteExactly(cfg: Config, s: Store, e: Env, id: string)
    requires Inv(cfg, s)
    requires id in s.sessions && s.sessions[id].phase == Open && !Due(s.sessions[id], e.now)
    requires s.sessions[id].received == s.sessions[id].manifest.contentBytes
    requires e.binding == None && e.metadata == None && e.key(Some(s.sessions[id].admittedAt)) == None
    ensures var row := s.sessions[id];
      var content := Assembled(s.chunks, id, FrameCount(row.manifest.contentBytes));
      var r := CompleteTransfer(cfg, s, e, row.agentId, row.commandId, id, cfg.manifestDigest(row.manifest));
      && (r.outcome.Ok? <==> cfg.sha256(content) == row.manifest.sha256 && cfg.wellFormed(content))
      && (r.outcome.Ok? ==>
            && r.after.sessions == s.sessions[id := row.(phase := Complete)]
            && r.after.artifacts ==
               s.artifacts[id := Artifact(row.agentId, row.commandId, content, Some(Attestation(row.manifest, e.now)))]
            && (forall f :: f in r.after.chunks ==> f.0 != id))
      && (r.outcome.Refused? ==> r.after == s)
  {
    hide WithinBudget, FramesOk, RetainFits;
    assert SessionOk(s, id);
    AssembledWhole(s, id);
    ReservationIsGuarantee(cfg, s, id);
  }

  // ---- the bytes of one file ----

  // The frame of file F at an offset; nothing past its end.
  function Slice(F: Bytes, offset: nat): Bytes
  {
    if offset <= |F| then F[offset..offset + FrameLength(|F|, offset)] else []
  }

  // The request, if it concerns artifact id, is made by a client that slices F.
  ghost predicate Serves(op: Op, id: string, F: Bytes) {
    match op
    case AdmitOp(_, _, _, m) => m.artifactId == id ==> m.contentBytes == |F|
    case ChunkOp(_, _, _, aid, off, _, data) => aid == id && 0 <= off <= |F| ==> data == Slice(F, off)
    case CompleteOp(_, _, _, _, _) => true
    case UploadOp(_, _, _, m, content) => m.artifactId == id ==> content == F
  }

  // Everything stored under id so far is F's.
  ghost predicate Holds(s: Store, id: string, F: Bytes) {
    && (id in s.sessions ==> s.sessions[id].manifest.contentBytes == |F|)
    && (forall off: nat :: (id, off) in s.chunks ==> off <= |F| && s.chunks[(id, off)] == Slice(F, off))
    && (id in s.artifacts ==> s.artifacts[id].content == F)
  }

  lemma {:induction false} AssembledPrefix(s: Store, id: string, F: Bytes, n: nat)
    requires FramesOk(s) && Holds(s, id, F) && id in s.sessions && s.sessions[id].phase == Open
    requires n == 0 || (n - 1) * CHUNK_BYTES < s.sessions[id].received <= |F|
    ensures Assembled(s.chunks, id, n) == F[..Min(n * CHUNK_BYTES, |F|)]
  {
    if n > 0 {
      var off := (n - 1) * CHUNK_BYTES;
      AssembledPrefix(s, id, F, n - 1);
      assert off % CHUNK_BYTES == 0;
      assert (id, off) in s.chunks;
      assert F[..off] + Slice(F, off) == F[..Min(n * CHUNK_BYTES, |F|)];
    }
  }

  lemma AssembledIsFile(s: Store, id: string, F: Bytes)
    requires FramesOk(s) && Holds(s, id, F) && id in s.sessions && s.sessions[id].phase == Open
    requires s.sessions[id].received == |F|
    ensures Assembled(s.chunks, id, FrameCount(|F|)) == F
  {
    AssembledPrefix(s, id, F, FrameCount(|F|));
    assert F[..|F|] == F;
  }

  lemma HandleHolds(cfg: Config, s: Store, op: Op, id: string, F: Bytes)
    requires Inv(cfg, s) && Holds(s, id, F) && Serves(op, id, F)
    ensures Holds(Handle(cfg, s, op).after, id, F)
  {
    hide Inv, Admit, PutChunk, CompleteTransfer, RetainSigned, Holds, Expire;
    ExpireHolds(s, op.env.now, id, F);
    match op
    case AdmitOp(e, a, c, m) => AdmitHolds(cfg, s, e, a, c, m, id, F);
    case ChunkOp(e, a, c, aid, off, d, data) => ChunkHolds(cfg, s, op, id, F);
    case CompleteOp(e, a, c, aid, d) => CompleteHolds(cfg, s, e, a, c, aid, d, id, F);
    case UploadOp(e, a, c, m, content) => RetainHolds(cfg, s, e, a, c, m, content, None, id, F);
  }

  lemma ExpireHolds(s: Store, now: int, id: string, F: Bytes)
    requires Holds(s, id, F)
    ensures Holds(Expire(s, now), id, F)
  {
    hide Slice;
  }

  lemma ChunkHolds(cfg: Config, s: Store, op: Op, id: string, F: Bytes)
    requires Inv(cfg, s) && Holds(s, id, F) && Serves(op, id, F) && op.ChunkOp?
    ensures Holds(PutChunk(cfg, s, op.env, op.agentId, op.commandId, op.artifactId, op.offset, op.digest, op.data).after, id, F)
  {
    hide Inv, PutChunk, Slice;
    PutChunkCases(cfg, s, op.env, op.agentId, op.commandId, op.artifactId, op.offset, op.digest, op.data);
  }

  lemma RetainHolds(cfg: Config, s: Store, e: Env, a: string, c: string, m: Manifest, content: Bytes, admitted: Option<int>, id: string, F: Bytes)
    requires Holds(s, id, F) && (m.artifactId == id ==> content == F)
    ensures Holds(RetainSigned(cfg, s, e, a, c, m, content, admitted).after, id, F)
  {
    hide RetainFits, Decodes, Slice, KeyCheck, Binding;
  }

  lemma AdmitHolds(cfg: Config, s: Store, e: Env, a: string, c: string, m: Manifest, id: string, F: Bytes)
    requires Holds(s, id, F) && (m.artifactId == id ==> m.contentBytes == |F|)
    ensures Holds(Admit(cfg, s, e, a, c, m).after, id, F)
  {
    hide ReserveFits, RetainSigned, Slice, KeyCheck, Binding, Expire;
    var x := Expire(s, e.now);
    ExpireHolds(s, e.now, id, F);
    if m.artifactId in x.artifacts { RetainHolds(cfg, x, e, a, c, m, x.artifacts[m.artifactId].content, None, id, F); }
  }

  lemma CompleteHolds(cfg: Config, s: Store, e: Env, a: string, c: string, aid: string, d: string, id: string, F: Bytes)
    requires Inv(cfg, s) && Holds(s, id, F)
    ensures Holds(CompleteTransfer(cfg, s, e, a, c, aid, d).after, id, F)
  {
    hide WithinBudget, RetainSigned, FramesOk, Slice, Assembled, LoadRefusal;
    if aid !in s.sessions {
      if aid in s.artifacts { RetainedHolds(cfg, s, e, a, c, aid, id, F); }
    } else {
      assert SessionOk(s, aid);
      var row := s.sessions[aid];
      if row.phase == Complete {
        RetainedHolds(cfg, s, e, a, c, aid, id, F);
      } else if row.received == row.manifest.contentBytes {
        if aid == id && row.phase == Open { AssembledIsFile(s, id, F); }
        ReleasedHolds(cfg, s, e, a, c, aid, id, F);
      }
    }
  }

  lemma RetainedHolds(cfg: Config, s: Store, e: Env, a: string, c: string, aid: string, id: string, F: Bytes)
    requires Holds(s, id, F) && aid in s.artifacts
    ensures AttestedBy(s, aid).Some? && AttestedBy(s, aid).value.manifest.artifactId == aid ==>
      Holds(Retained(cfg, s, e, a, c, AttestedBy(s, aid).value.manifest).after, id, F)
  {
    hide RetainSigned, Slice;
    if AttestedBy(s, aid).Some? && AttestedBy(s, aid).value.manifest.artifactId == aid {
      RetainHolds(cfg, s, e, a, c, AttestedBy(s, aid).value.manifest, s.artifacts[aid].content, None, id, F);
    }
  }

  lemma ReleasedHolds(cfg: Config, s: Store, e: Env, a: string, c: string, aid: string, id: string, F: Bytes)
    requires Holds(s, id, F) && aid in s.sessions && s.sessions[aid].manifest.artifactId == aid
    requires aid == id && s.sessions[aid].phase == Open ==> Assembled(s.chunks, aid, FrameCount(s.sessions[aid].manifest.contentBytes)) == F
    requires s.sessions[aid].phase == Open || aid != id
    ensures var row := s.sessions[aid];
      var content := Assembled(s.chunks, aid, FrameCount(row.manifest.contentBytes));
      var r := RetainSigned(cfg, Released(s, aid), e, a, c, row.manifest, content, Some(row.admittedAt));
      Holds(r.after.(chunks := DropChunks(s.chunks, aid)), id, F)
  {
    hide RetainSigned, Slice, Assembled;
    var row := s.sessions[aid];
    var content := Assembled(s.chunks, aid, FrameCount(row.manifest.contentBytes));
    assert Holds(Released(s, aid), id, F);
    RetainHolds(cfg, Released(s, aid), e, a, c, row.manifest, content, Some(row.admittedAt), id, F);
  }

  // However the client retries, resends out of order, resumes or restarts after expiry: whatever is
  // retained for the artifact it slices is exactly the file.
  lemma {:induction false} RetainedIsFile(cfg: Config, s: Store, ops: seq<Op>, id: string, F: Bytes)
    requires Initial(cfg, s) && id !in s.artifacts
    requires forall i :: 0 <= i < |ops| ==> Serves(ops[i], id, F)
    ensures Holds(Run(cfg, s, ops), id, F)
    ensures id in Run(cfg, s, ops).artifacts ==> Run(cfg, s, ops).artifacts[id].content == F
  {
    if ops != [] {
      var before := ops[..|ops| - 1];
      RetainedIsFile(cfg, s, before, id, F);
      RunInv(cfg, s, before);
      HandleHolds(cfg, Run(cfg, s, before), ops[|ops| - 1], id, F);
    }
  }

  // Which chunk an owned, live session takes, for a chunk that carries its own digest: a frame already
  // accepted, or of a completed artifact, exactly when it equals F's slice; a new frame exactly at the
  // durable offset.
  lemma ChunkAcceptedExactly(cfg: Config, s: Store, e: Env, id: string, F: Bytes, offset: int, data: Bytes)
    requires Inv(cfg, s) && Holds(s, id, F)
    requires id in s.sessions
    requires LoadRefusal(s, e, s.sessions[id].agentId, s.sessions[id].commandId, id) == None
    ensures var row := s.sessions[id];
      var r := PutChunk(cfg, s, e, row.agentId, row.commandId, id, offset, cfg.sha256(data), data);
      r.outcome.Ok? <==>
        ChunkFits(|F|, offset, data)
        && (row.phase == Complete || offset < row.received ==> data == Slice(F, offset))
        && (row.phase == Open ==> offset <= row.received)
  {
    hide WithinBudget;
    var row := s.sessions[id];
    assert SessionOk(s, id);
    if ChunkFits(|F|, offset, data) {
      if row.phase == Complete {
        assert s.artifacts[id].content == F;
      } else if offset < row.received {
        assert (id, offset) in s.chunks;
      } else {
        assert (id, offset) !in s.chunks;
      }
    }
  }

  // ---- progress ----

  ghost predicate Clean(e: Env) {
    e.binding == None && e.metadata == None && forall t :: e.key(t) == None
  }

  // A session that holds the first k frames of F.
  ghost predicate Holding(cfg: Config, s: Store, id: string, F: Bytes, k: nat) {
    && Inv(cfg, s) && Holds(s, id, F)
    && id in s.sessions && s.sessions[id].phase == Open
    && s.sessions[id].received == Min(k * CHUNK_BYTES, |F|)
  }

  predicate Concerns(op: Op, id: string) {
    match op
    case AdmitOp(_, _, _, m) => m.artifactId == id
    case ChunkOp(_, _, _, aid, _, _, _) => aid == id
    case CompleteOp(_, _, _, aid, _) => aid == id
    case UploadOp(_, _, _, m, _) => m.artifactId == id
  }

  // The owner sends some frame of F: the next one, one again, or one too early.
  ghost predicate SendsFrame(cfg: Config, op: Op, row: Session, id: string, F: Bytes) {
    && op.ChunkOp? && op.artifactId == id && Clean(op.env)
    && op.agentId == row.agentId && op.commandId == row.commandId
    && 0 <= op.offset < |F| && op.offset % CHUNK_BYTES == 0
    && op.data == Slice(F, op.offset) && op.digest == cfg.sha256(op.data)
  }

  // While the session lasts, its owner sends frames of F in any order, and others do anything else.
  ghost predicate Cooperates(cfg: Config, op: Op, row: Session, id: string, F: Bytes) {
    op.env.now < row.expiresAt && (SendsFrame(cfg, op, row, id, F) || !Concerns(op, id))
  }

  // How many frames are in place after the requests, when k were before: a frame counts when it is its turn.
  function Placed(ops: seq<Op>, id: string, k: nat): nat {
    if ops == [] then k
    else
      var before := Placed(ops[..|ops| - 1], id, k);
      var op := ops[|ops| - 1];
      if op.ChunkOp? && op.artifactId == id && op.offset == before * CHUNK_BYTES then before + 1 else before
  }

  lemma SendOne(cfg: Config, s: Store, op: Op, id: string, F: Bytes, k: nat)
    requires Holding(cfg, s, id, F, k) && SendsFrame(cfg, op, s.sessions[id], id, F)
    requires op.env.now < s.sessions[id].expiresAt
    ensures var t := Handle(cfg, s, op).after;
      var n := if op.offset == k * CHUNK_BYTES then k + 1 else k;
      Holding(cfg, t, id, F, n) && t.sessions[id] == s.sessions[id].(received := Min(n * CHUNK_BYTES, |F|))
  {
    hide WithinBudget;
    var row := s.sessions[id];
    assert SessionOk(s, id);
    ChunkAcceptedExactly(cfg, s, op.env, id, F, op.offset, op.data);
    HandleInv(cfg, s, op);
    HandleHolds(cfg, s, op, id, F);
    if op.offset >= row.received { assert (id, op.offset) !in s.chunks; }
  }

  // A request about other artifacts leaves a live session alone.
  lemma OtherKeeps(cfg: Config, s: Store, op: Op, id: string)
    requires Structure(cfg, s) && !Concerns(op, id) && id in s.sessions && s.sessions[id].phase == Open
    requires op.env.now < s.sessions[id].expiresAt
    ensures var t := Handle(cfg, s, op).after; id in t.sessions && t.sessions[id] == s.sessions[id]
  {
    hide RetainSigned, CompleteTransfer, Admit, PutChunk, Structure;
    match op
    case AdmitOp(e, a, c, m) => AdmitKeeps(cfg, s, e, a, c, m, id);
    case ChunkOp(e, a, c, aid, off, d, data) => ChunkKeeps(cfg, s, e, a, c, aid, off, d, data, id);
    case CompleteOp(e, a, c, aid, d) => CompleteKeeps(cfg, s, e, a, c, aid, d, id);
    case UploadOp(e, a, c, m, content) => RetainKeeps(cfg, s, e, a, c, m, content, None);
  }

  lemma RetainKeeps(cfg: Config, s: Store, e: Env, a: string, c: string, m: Manifest, content: Bytes, admitted: Option<int>)
    ensures RetainSigned(cfg, s, e, a, c, m, content, admitted).after.sessions == s.sessions
  {
    hide RetainFits, Decodes;
  }

  lemma AdmitKeeps(cfg: Config, s: Store, e: Env, a: string, c: string, m: Manifest, id: string)
    requires m.artifactId != id && id in s.sessions && s.sessions[id].phase == Open && e.now < s.sessions[id].expiresAt
    ensures var t := Admit(cfg, s, e, a, c, m).after; id in t.sessions && t.sessions[id] == s.sessions[id]
  {
    hide RetainSigned, ReserveFits;
    var x := Expire(s, e.now);
    if AttestedBy(x, m.artifactId).Some? {
      RetainKeeps(cfg, x, e, a, c, m, x.artifacts[m.artifactId].content, None);
    }
  }

  lemma ChunkKeeps(cfg: Config, s: Store, e: Env, a: string, c: string, aid: string, off: int, d: string, data: Bytes, id: string)
    requires aid != id && id in s.sessions
    ensures var t := PutChunk(cfg, s, e, a, c, aid, off, d, data).after; id in t.sessions && t.sessions[id] == s.sessions[id]
  {
  }

  lemma CompleteKeeps(cfg: Config, s: Store, e: Env, a: string, c: string, aid: string, d: string, id: string)
    requires Structure(cfg, s) && aid != id && id in s.sessions
    ensures var t := CompleteTransfer(cfg, s, e, a, c, aid, d).after; id in t.sessions && t.sessions[id] == s.sessions[id]
  {
    hide RetainSigned, FramesOk, Assembled;
    forall x: Store, m: Manifest, content: Bytes, admitted: Option<int>
      ensures RetainSigned(cfg, x, e, a, c, m, content, admitted).after.sessions == x.sessions
    {
      RetainKeeps(cfg, x, e, a, c, m, content, admitted);
    }
  }

  lemma TransferStep(cfg: Config, s: Store, op: Op, id: string, F: Bytes, k: nat)
    requires Holding(cfg, s, id, F, k) && Cooperates(cfg, op, s.sessions[id], id, F)
    ensures var t := Handle(cfg, s, op).after;
      var n := if op.ChunkOp? && op.artifactId == id && op.offset == k * CHUNK_BYTES then k + 1 else k;
      Holding(cfg, t, id, F, n) && t.sessions[id] == s.sessions[id].(received := Min(n * CHUNK_BYTES, |F|))
  {
    hide Handle, WithinBudget, Structure, Holds;
    if SendsFrame(cfg, op, s.sessions[id], id, F) {
      SendOne(cfg, s, op, id, F, k);
    } else {
      OtherKeeps(cfg, s, op, id);
      HandleInv(cfg, s, op);
      HandleHolds(cfg, s, op, id, F);
    }
  }

  // Whatever the order of the frames and the requests in between, exactly the frames sent in their turn are placed.
  lemma {:induction false} SendAll(cfg: Config, s: Store, ops: seq<Op>, id: string, F: Bytes, k: nat)
    requires Holding(cfg, s, id, F, k)
    requires forall i :: 0 <= i < |ops| ==> Cooperates(cfg, ops[i], s.sessions[id], id, F)
    ensures var t := Run(cfg, s, ops); var n := Placed(ops, id, k);
      Holding(cfg, t, id, F, n) && t.sessions[id] == s.sessions[id].(received := Min(n * CHUNK_BYTES, |F|))
  {
    hide Inv, Holds, Handle, Slice, SendsFrame;
    if ops != [] {
      var n := |ops| - 1;
      SendAll(cfg, s, ops[..n], id, F, k);
      assert Cooperates(cfg, ops[n], s.sessions[id], id, F);
      var mid := Run(cfg, s, ops[..n]);
      SameOwner(cfg, ops[n], s.sessions[id], mid.sessions[id], id, F);
      TransferStep(cfg, mid, ops[n], id, F, Placed(ops[..n], id, k));
    }
  }

  lemma SameOwner(cfg: Config, op: Op, a: Session, b: Session, id: string, F: Bytes)
    requires Cooperates(cfg, op, a, id, F) && b == a.(received := b.received)
    ensures Cooperates(cfg, op, b, id, F)
  {
  }

  lemma FrameCountCovers(size: nat)
    ensures size <= FrameCount(size) * CHUNK_BYTES
    ensures size > 0 ==> 0 < FrameCount(size) && (FrameCount(size) - 1) * CHUNK_BYTES < size
  {
  }

  // The file is retained under id, its session is complete and none of its chunks remain.
  ghost predicate Delivered(s: Store, id: string, F: Bytes) {
    && id in s.artifacts && s.artifacts[id].content == F
    && id in s.sessions && s.sessions[id].phase == Complete
    && forall f :: f in s.chunks ==> f.0 != id
  }

  lemma CompleteDelivers(cfg: Config, t: Store, e: Env, id: string, F: Bytes, n: nat)
    requires Clean(e) && Holding(cfg, t, id, F, n) && n >= FrameCount(|F|) && e.now < t.sessions[id].expiresAt
    requires Decodes(cfg, t.sessions[id].manifest, F)
    ensures var row := t.sessions[id];
      var r := Handle(cfg, t, CompleteOp(e, row.agentId, row.commandId, id, cfg.manifestDigest(row.manifest)));
      r.outcome == Ok(Receipt(id, row.manifest.sha256)) && Delivered(r.after, id, F)
  {
    hide WithinBudget, FramesOk, RetainFits, RetainSigned;
    FrameCountCovers(|F|);
    assert n * CHUNK_BYTES >= FrameCount(|F|) * CHUNK_BYTES;
    assert SessionOk(t, id);
    AssembledIsFile(t, id, F);
    CompleteExactly(cfg, t, e, id);
    CompleteReceipt(cfg, t, e, id);
  }

  lemma CompleteReceipt(cfg: Config, s: Store, e: Env, id: string)
    requires Structure(cfg, s) && id in s.sessions
    ensures var row := s.sessions[id];
      var r := CompleteTransfer(cfg, s, e, row.agentId, row.commandId, id, cfg.manifestDigest(row.manifest));
      r.outcome.Ok? ==> r.outcome == Ok(Receipt(id, row.manifest.sha256))
  {
    hide FramesOk, RetainFits;
    assert SessionOk(s, id);
  }

  // Round trip with resume: a session that holds k frames of F when its owner sends frames, in any order, with
  // any repetition and among any requests about other artifacts. Once the remaining frames were sent in their
  // turn, completing retains exactly F, releases the session and drops its chunks.
  lemma ResumeCompletes(cfg: Config, s: Store, ops: seq<Op>, e: Env, id: string, F: Bytes, k: nat)
    requires Holding(cfg, s, id, F, k) && Decodes(cfg, s.sessions[id].manifest, F)
    requires forall i :: 0 <= i < |ops| ==> Cooperates(cfg, ops[i], s.sessions[id], id, F)
    requires Placed(ops, id, k) >= FrameCount(|F|)
    requires Clean(e) && e.now < s.sessions[id].expiresAt
    ensures var row := s.sessions[id];
      var r := Handle(cfg, Run(cfg, s, ops), CompleteOp(e, row.agentId, row.commandId, id, cfg.manifestDigest(row.manifest)));
      r.outcome == Ok(Receipt(id, row.manifest.sha256)) && Delivered(r.after, id, F)
  {
    hide Inv, Holds, Handle, Run, Placed, Delivered, Decodes, Cooperates;
    SendAll(cfg, s, ops, id, F, k);
    CompleteDelivers(cfg, Run(cfg, s, ops), e, id, F, Placed(ops, id, k));
  }

  // No live session stands in the way: there is none, or one of the same manifest that expired or is due.
  ghost predicate Admissible(cfg: Config, s: Store, now: int, m: Manifest) {
    var x := Expire(s, now);
    && m.artifactId !in x.artifacts
    && (m.artifactId in x.sessions ==> x.sessions[m.artifactId].phase == Expired && x.sessions[m.artifactId].manifest == m)
    && ReserveFits(cfg, x, m, m.artifactId in x.sessions)
  }

  // An admission that fits, new or after expiry, opens a session at offset 0 that a client can complete.
  lemma AdmitOpens(cfg: Config, s: Store, e: Env, m: Manifest, F: Bytes)
    requires e.binding == None && e.key(None) == None && Inv(cfg, s) && m.contentBytes == |F| && Admissible(cfg, s, e.now, m)
    ensures var r := Handle(cfg, s, AdmitOp(e, m.agentId, m.commandId, m));
      && r.outcome == Ok(Progress(0, false, Some(e.now + SESSION_LIFETIME)))
      && Holding(cfg, r.after, m.artifactId, F, 0)
      && r.after.sessions[m.artifactId] == Fresh(m, e.now)
  {
    hide Inv, ReserveFits, WithinBudget, Structure, FramesOk;
    HandleInv(cfg, s, AdmitOp(e, m.agentId, m.commandId, m));
    var x := Expire(s, e.now);
    ExpireInv(cfg, s, e.now);
    if m.artifactId in x.sessions { OwnedSession(cfg, x, m.artifactId); }
    NoChunks(cfg, x, m.artifactId);
  }

  lemma OwnedSession(cfg: Config, s: Store, id: string)
    requires Inv(cfg, s) && id in s.sessions
    ensures var r := s.sessions[id]; r.agentId == r.manifest.agentId && r.commandId == r.manifest.commandId
  {
    hide WithinBudget, FramesOk;
    assert SessionOk(s, id);
  }

  lemma NoChunks(cfg: Config, s: Store, id: string)
    requires Inv(cfg, s) && (id in s.sessions ==> s.sessions[id].phase != Open)
    ensures forall off: nat :: (id, off) !in s.chunks
  {
    hide WithinBudget;
  }

  // The owner sends frame n of F.
  function Sending(cfg: Config, e: Env, m: Manifest, F: Bytes, n: nat): Op {
    var off := n * CHUNK_BYTES;
    ChunkOp(e, m.agentId, m.commandId, m.artifactId, off, cfg.sha256(Slice(F, off)), Slice(F, off))
  }

  // The frames k .. n - 1 of F in order, each sent once, are all placed: the run of ResumeCompletes exists for
  // every F and every prefix.
  function Sends(cfg: Config, e: Env, m: Manifest, F: Bytes, k: nat, n: nat): seq<Op>
    decreases n
  {
    if n <= k then [] else Sends(cfg, e, m, F, k, n - 1) + [Sending(cfg, e, m, F, n - 1)]
  }

  lemma {:induction false} SendsPlace(cfg: Config, e: Env, row: Session, F: Bytes, k: nat, n: nat)
    requires Clean(e) && e.now < row.expiresAt && k <= n <= FrameCount(|F|)
    requires row.agentId == row.manifest.agentId && row.commandId == row.manifest.commandId
    ensures var ops := Sends(cfg, e, row.manifest, F, k, n);
      && Placed(ops, row.manifest.artifactId, k) == n
      && forall i :: 0 <= i < |ops| ==> Cooperates(cfg, ops[i], row, row.manifest.artifactId, F)
    decreases n
  {
    hide Cooperates, Sending, Clean, Placed;
    if n <= k {
      PlacedNext([], Sending(cfg, e, row.manifest, F, n), row.manifest.artifactId, k);
    } else {
      var before, op := Sends(cfg, e, row.manifest, F, k, n - 1), Sending(cfg, e, row.manifest, F, n - 1);
      SendsPlace(cfg, e, row, F, k, n - 1);
      SentFrame(cfg, e, row, F, n - 1);
      PlacedNext(before, op, row.manifest.artifactId, k);
    }
  }

  lemma PlacedNext(ops: seq<Op>, op: Op, id: string, k: nat)
    ensures Placed([], id, k) == k
    ensures var before := Placed(ops, id, k);
      Placed(ops + [op], id, k) == if op.ChunkOp? && op.artifactId == id && op.offset == before * CHUNK_BYTES then before + 1 else before
  {
    assert (ops + [op])[..|ops|] == ops;
  }

  lemma SentFrame(cfg: Config, e: Env, row: Session, F: Bytes, n: nat)
    requires Clean(e) && e.now < row.expiresAt && n < FrameCount(|F|)
    requires row.agentId == row.manifest.agentId && row.commandId == row.manifest.commandId
    ensures var op := Sending(cfg, e, row.manifest, F, n);
      && op.ChunkOp? && op.artifactId == row.manifest.artifactId && op.offset == n * CHUNK_BYTES
      && Cooperates(cfg, op, row, row.manifest.artifactId, F)
  {
    hide Slice;
    FrameCountCovers(|F|);
    assert n * CHUNK_BYTES % CHUNK_BYTES == 0;
  }

  function Fresh(m: Manifest, now: int): Session {
    Session(m.agentId, m.commandId, m, 0, Open, now, now + SESSION_LIFETIME)
  }

  // End to end: admit, or readmit after expiry, place every frame and complete before the session expires:
  // exactly F is retained.
  lemma FreshTransferDelivers(cfg: Config, s: Store, e0: Env, ops: seq<Op>, e: Env, m: Manifest, F: Bytes)
    requires Clean(e0) && Inv(cfg, s) && Decodes(cfg, m, F) && Admissible(cfg, s, e0.now, m)
    requires forall i :: 0 <= i < |ops| ==> Cooperates(cfg, ops[i], Fresh(m, e0.now), m.artifactId, F)
    requires Placed(ops, m.artifactId, 0) >= FrameCount(|F|)
    requires Clean(e) && e.now < e0.now + SESSION_LIFETIME
    ensures var t := Run(cfg, Handle(cfg, s, AdmitOp(e0, m.agentId, m.commandId, m)).after, ops);
      var r := Handle(cfg, t, CompleteOp(e, m.agentId, m.commandId, m.artifactId, cfg.manifestDigest(m)));
      r.outcome == Ok(Receipt(m.artifactId, m.sha256)) && Delivered(r.after, m.artifactId, F)
  {
    hide Inv, Holds, Handle, Run, Placed, Cooperates, Delivered, Admissible;
    AdmitOpens(cfg, s, e0, m, F);
    ResumeCompletes(cfg, Handle(cfg, s, AdmitOp(e0, m.agentId, m.commandId, m)).after, ops, e, m.artifactId, F, 0);
  }
}
