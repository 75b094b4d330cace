// What the answers of the transfer protocol mean, and which requests it must refuse.
module TransferReplies {
  import opened Aggregates
  import opened Transfers
  import opened TransferInvariants
  import opened TransferRuns

  function Target(op: Op): string {
    match op
    case AdmitOp(_, _, _, m) => m.artifactId
    case ChunkOp(_, _, _, id, _, _, _) => id
    case CompleteOp(_, _, _, id, _) => id
    case UploadOp(_, _, _, m, _) => m.artifactId
  }

  // ---- the durable offset ----

  // The chunks stored under id are exactly the frames below n.
  ghost predicate StoredBelow(s: Store, id: string, n: nat) {
    forall off: nat :: (id, off) in s.chunks <==> off % CHUNK_BYTES == 0 && off < n
  }

  // What a progress answer about id says of the tables after it.
  ghost predicate Truthful(s: Store, id: string, reply: Reply)
    requires reply.Progress?
  {
    if reply.complete then
      reply.expiresAt == None && id in s.artifacts && reply.received == |s.artifacts[id].content|
    else
      && id in s.sessions && s.sessions[id].phase == Open && reply.expiresAt == Some(s.sessions[id].expiresAt)
      && StoredBelow(s, id, reply.received) && reply.received <= s.sessions[id].manifest.contentBytes
      && (reply.received % CHUNK_BYTES == 0 || reply.received == s.sessions[id].manifest.contentBytes)
  }

  lemma OpenStored(s: Store, id: string)
    requires FramesOk(s) && id in s.sessions && SessionOk(s, id) && s.sessions[id].phase == Open
    ensures Truthful(s, id, Progress(s.sessions[id].received, false, Some(s.sessions[id].expiresAt)))
  {
  }

  lemma SessionParts(cfg: Config, s: Store, id: string)
    requires Inv(cfg, s)
    ensures FramesOk(s) && (id in s.sessions ==> SessionOk(s, id)) && (id in s.artifacts ==> ArtifactOk(cfg, s, id))
  {
    hide WithinBudget, FramesOk, SessionOk, ArtifactOk;
  }

  // Whatever request is answered with progress: the answer is the durable offset of the open session with its
  // stored expiry, or the size of the retained artifact.
  lemma ProgressIsTrue(cfg: Config, s: Store, op: Op)
    requires Inv(cfg, s)
    ensures var r := Handle(cfg, s, op); r.outcome.Ok? && r.outcome.reply.Progress? ==> Truthful(r.after, Target(op), r.outcome.reply)
  {
    hide Inv, Truthful, RetainSigned, Retained, Admit, PutChunk;
    match op
    case AdmitOp(e, a, c, m) => AdmitTrue(cfg, s, e, a, c, m);
    case ChunkOp(e, a, c, id, off, d, data) => ChunkTrue(cfg, s, e, a, c, id, off, d, data);
    case CompleteOp(e, a, c, id, d) => CompleteReceipts(cfg, s, e, a, c, id, d);
    case UploadOp(e, a, c, m, content) => RetainReceipts(cfg, s, e, a, c, m, content, None);
  }

  lemma AdmitTrue(cfg: Config, s: Store, e: Env, a: string, c: string, m: Manifest)
    requires Inv(cfg, s)
    ensures var r := Admit(cfg, s, e, a, c, m);
      r.outcome.Ok? ==> r.outcome.reply.Progress? && Truthful(r.after, m.artifactId, r.outcome.reply)
  {
    hide Inv, Truthful, RetainSigned, ReserveFits, KeyCheck, Binding, Expire;
    var x := Expire(s, e.now);
    ExpireInv(cfg, s, e.now);
    AdmitInv(cfg, s, e, a, c, m);
    var r := Admit(cfg, s, e, a, c, m);
    if r.outcome.Ok? {
      if AttestedBy(x, m.artifactId).Some? {
        SessionParts(cfg, x, m.artifactId);
        SizeTrue(x, m.artifactId, m.contentBytes);
      } else {
        SessionParts(cfg, r.after, m.artifactId);
        OpenStored(r.after, m.artifactId);
      }
    }
  }

  lemma SizeTrue(s: Store, id: string, n: nat)
    requires id in s.artifacts && |s.artifacts[id].content| == n
    ensures Truthful(s, id, Progress(n, true, None))
  {
  }

  lemma ChunkTrue(cfg: Config, s: Store, e: Env, a: string, c: string, id: string, off: int, d: string, data: Bytes)
    requires Inv(cfg, s)
    ensures var r := PutChunk(cfg, s, e, a, c, id, off, d, data);
      r.outcome.Ok? ==> r.outcome.reply.Progress? && Truthful(r.after, id, r.outcome.reply)
  {
    hide Inv, Truthful, KeyCheck, Binding, ChunkFits;
    PutChunkInv(cfg, s, e, a, c, id, off, d, data);
    var r := PutChunk(cfg, s, e, a, c, id, off, d, data);
    if r.outcome.Ok? {
      if s.sessions[id].phase == Complete {
        CompletedSize(cfg, s, id);
        SizeTrue(s, id, s.sessions[id].manifest.contentBytes);
      } else {
        SessionParts(cfg, r.after, id);
        OpenStored(r.after, id);
      }
    }
  }

  lemma CompletedSize(cfg: Config, s: Store, id: string)
    requires Inv(cfg, s) && id in s.sessions && s.sessions[id].phase == Complete
    ensures id in s.artifacts && |s.artifacts[id].content| == s.sessions[id].manifest.contentBytes
  {
    hide WithinBudget, FramesOk;
    assert SessionOk(s, id) && ArtifactOk(cfg, s, id);
  }

  // Readmission of a live session under its own manifest is answered exactly when its key verifies for the time of
  // its admission; it changes neither the session nor its chunks.
  lemma ResumeAnswered(cfg: Config, s: Store, e: Env, id: string)
    requires Inv(cfg, s) && e.binding == None && id in s.sessions && s.sessions[id].phase == Open && e.now < s.sessions[id].expiresAt
    ensures var row := s.sessions[id];
      var r := Handle(cfg, s, AdmitOp(e, row.agentId, row.commandId, row.manifest));
      && (r.outcome.Ok? <==> e.key(Some(row.admittedAt)) == None)
      && (r.outcome.Ok? ==> r.outcome.reply.Progress? && !r.outcome.reply.complete && Truthful(r.after, id, r.outcome.reply))
      && id in r.after.sessions && r.after.sessions[id] == row && SameChunks(s, r.after, id)
  {
    hide WithinBudget, FramesOk, ReserveFits, Truthful;
    var row := s.sessions[id];
    assert SessionOk(s, id);
    ProgressIsTrue(cfg, s, AdmitOp(e, row.agentId, row.commandId, row.manifest));
  }

  ghost predicate SameChunks(s: Store, t: Store, id: string) {
    forall off: nat :: if (id, off) in s.chunks then (id, off) in t.chunks && t.chunks[(id, off)] == s.chunks[(id, off)]
                       else (id, off) !in t.chunks
  }

  // Which requests a session serves at all: those of its owner, with its binding, under its key as of its admission,
  // while it is open and unexpired or complete.
  lemma ServedExactly(s: Store, e: Env, agentId: string, commandId: string, id: string)
    ensures LoadRefusal(s, e, agentId, commandId, id) == None <==>
      && id in s.sessions
      && var row := s.sessions[id];
         && row.agentId == agentId == row.manifest.agentId && row.commandId == commandId == row.manifest.commandId
         && e.binding == None && e.key(Some(row.admittedAt)) == None
         && (row.phase == Complete || (row.phase == Open && e.now < row.expiresAt))
  {
  }

  // A chunk that does not have its declared digest is refused.
  lemma DigestRefuses(cfg: Config, s: Store, op: Op)
    requires op.ChunkOp? && cfg.sha256(op.data) != op.digest
    ensures Handle(cfg, s, op).outcome.Refused?
  {
  }

  lemma ToldHolding(cfg: Config, t: Store, id: string, F: Bytes, reply: Reply)
    requires Inv(cfg, t) && Holds(t, id, F) && reply.Progress? && !reply.complete && Truthful(t, id, reply)
    ensures Holding(cfg, t, id, F, FrameCount(reply.received)) && FrameCount(reply.received) <= FrameCount(|F|)
    ensures t.sessions[id].expiresAt == reply.expiresAt.value
  {
    hide WithinBudget;
    var row := t.sessions[id];
    assert SessionOk(t, id);
    var n := reply.received;
    OffsetUnique(cfg, t, id, n);
    FrameCountOf(n, |F|);
  }

  // Only the durable offset has exactly these frames below it.
  lemma OffsetUnique(cfg: Config, t: Store, id: string, n: nat)
    requires Inv(cfg, t) && id in t.sessions && t.sessions[id].phase == Open && StoredBelow(t, id, n)
    requires n <= t.sessions[id].manifest.contentBytes && (n % CHUNK_BYTES == 0 || n == t.sessions[id].manifest.contentBytes)
    ensures n == t.sessions[id].received
  {
    hide WithinBudget;
    var row := t.sessions[id];
    assert SessionOk(t, id);
    var below, next := (id, n) in t.chunks, (id, row.received) in t.chunks;
  }

  lemma FrameCountOf(n: nat, size: nat)
    requires n <= size && (n % CHUNK_BYTES == 0 || n == size)
    ensures n == Min(FrameCount(n) * CHUNK_BYTES, size) && FrameCount(n) <= FrameCount(size)
  {
  }

  // The answer tells the offset of a session that holds a part of F.
  ghost predicate Told(cfg: Config, r: Stepped, id: string, F: Bytes) {
    && r.outcome.Ok? && r.outcome.reply.Progress? && !r.outcome.reply.complete && r.outcome.reply.expiresAt.Some?
    && Holds(r.after, id, F) && id in r.after.sessions && Decodes(cfg, r.after.sessions[id].manifest, F)
  }

  // A client that is told an offset, by whatever request, and sends the frames of F from there delivers F.
  lemma ToldClientDelivers(cfg: Config, s: Store, op: Op, e: Env, F: Bytes)
    requires Inv(cfg, s) && Clean(e)
    ensures var r := Handle(cfg, s, op); var id := Target(op);
      Told(cfg, r, id, F) && e.now < r.outcome.reply.expiresAt.value ==>
        var m := r.after.sessions[id].manifest;
        var t := Run(cfg, r.after, Sends(cfg, e, m, F, FrameCount(r.outcome.reply.received), FrameCount(|F|)));
        var done := Handle(cfg, t, CompleteOp(e, m.agentId, m.commandId, id, cfg.manifestDigest(m)));
        done.outcome == Ok(Receipt(id, m.sha256)) && Delivered(done.after, id, F)
  {
    hide Inv, Holds, Handle, Run, Sends, Placed, Cooperates, Delivered, Decodes, Truthful;
    var r := Handle(cfg, s, op);
    var id := Target(op);
    if Told(cfg, r, id, F) && e.now < r.outcome.reply.expiresAt.value {
      var k := FrameCount(r.outcome.reply.received);
      HandleInv(cfg, s, op);
      ProgressIsTrue(cfg, s, op);
      ToldHolding(cfg, r.after, id, F, r.outcome.reply);
      OwnedSession(cfg, r.after, id);
      SessionParts(cfg, r.after, id);
      var row := r.after.sessions[id];
      SendsPlace(cfg, e, row, F, k, FrameCount(|F|));
      ResumeCompletes(cfg, r.after, Sends(cfg, e, row.manifest, F, k, FrameCount(|F|)), e, id, F, k);
    }
  }

  // ---- receipts ----

  // The artifact is retained as the manifest says, and the receipt names its digest.
  ghost predicate Vouches(cfg: Config, s: Store, id: string, reply: Reply, m: Manifest)
    requires reply.Receipt?
  {
    && reply == Receipt(id, m.sha256) && m.artifactId == id
    && id in s.artifacts && s.artifacts[id].attested.Some? && s.artifacts[id].attested.value.manifest == m
    && cfg.sha256(s.artifacts[id].content) == m.sha256 && |s.artifacts[id].content| == m.contentBytes
  }

  lemma RetainReceipts(cfg: Config, s: Store, e: Env, a: string, c: string, m: Manifest, content: Bytes, admitted: Option<int>)
    ensures var r := RetainSigned(cfg, s, e, a, c, m, content, admitted);
      r.outcome.Ok? ==> r.outcome.reply.Receipt? && Vouches(cfg, r.after, m.artifactId, r.outcome.reply, m)
                        && m.artifactId in r.after.artifacts && r.after.artifacts[m.artifactId].content == content
                        && r.after.artifacts[m.artifactId].attested.Some? && r.after.artifacts[m.artifactId].attested.value.manifest == m
  {
    hide RetainFits, KeyCheck, Binding;
  }

  lemma CompleteReceipts(cfg: Config, s: Store, e: Env, a: string, c: string, id: string, d: string)
    requires Inv(cfg, s)
    ensures var r := CompleteTransfer(cfg, s, e, a, c, id, d);
      r.outcome.Ok? ==>
        && r.outcome.reply.Receipt? && id in r.after.artifacts && r.after.artifacts[id].attested.Some?
        && var m := r.after.artifacts[id].attested.value.manifest; cfg.manifestDigest(m) == d && Vouches(cfg, r.after, id, r.outcome.reply, m)
  {
    hide WithinBudget, FramesOk, RetainSigned, LoadRefusal, Assembled;
    forall x: Store, m: Manifest, content: Bytes, admitted: Option<int>
      ensures var r := RetainSigned(cfg, x, e, a, c, m, content, admitted);
        r.outcome.Ok? ==> r.outcome.reply.Receipt? && Vouches(cfg, r.after, m.artifactId, r.outcome.reply, m)
    {
      RetainReceipts(cfg, x, e, a, c, m, content, admitted);
    }
    if id in s.sessions { assert SessionOk(s, id); }
  }

  // A receipt means that the artifact is retained with the attested digest and size; for an upload, as uploaded.
  lemma ReceiptMeansRetained(cfg: Config, s: Store, op: Op)
    requires Inv(cfg, s)
    ensures var r := Handle(cfg, s, op); var id := Target(op);
      r.outcome.Ok? && r.outcome.reply.Receipt? ==>
        && id in r.after.artifacts && r.after.artifacts[id].attested.Some?
        && Vouches(cfg, r.after, id, r.outcome.reply, r.after.artifacts[id].attested.value.manifest)
        && (op.CompleteOp? ==> op.manifestDigest == cfg.manifestDigest(r.after.artifacts[id].attested.value.manifest))
        && (op.UploadOp? ==> r.after.artifacts[id].attested.value.manifest == op.manifest && r.after.artifacts[id].content == op.content)
  {
    hide Inv, Vouches, RetainSigned, Admit, PutChunk, CompleteTransfer, Truthful;
    match op
    case AdmitOp(e, a, c, m) => AdmitTrue(cfg, s, e, a, c, m);
    case ChunkOp(e, a, c, id, off, d, data) => ChunkTrue(cfg, s, e, a, c, id, off, d, data);
    case CompleteOp(e, a, c, id, d) => CompleteReceipts(cfg, s, e, a, c, id, d);
    case UploadOp(e, a, c, m, content) => RetainReceipts(cfg, s, e, a, c, m, content, None);
  }

  // Completing again what was completed is answered with the same receipt and changes nothing, when the key verifies
  // for the time of the admission and of the first retention.
  lemma CompletionRepeats(cfg: Config, s: Store, e: Env, id: string)
    requires Inv(cfg, s) && id in s.sessions && s.sessions[id].phase == Complete
    requires e.binding == None && e.metadata == None && e.key(Some(s.sessions[id].admittedAt)) == None
    requires id in s.artifacts && s.artifacts[id].attested.Some? && e.key(Some(s.artifacts[id].attested.value.verifiedAt)) == None
    ensures var row := s.sessions[id];
      Handle(cfg, s, CompleteOp(e, row.agentId, row.commandId, id, cfg.manifestDigest(row.manifest)))
      == Stepped(Ok(Receipt(id, row.manifest.sha256)), s)
  {
    hide WithinBudget, FramesOk, RetainFits;
    assert SessionOk(s, id) && ArtifactOk(cfg, s, id);
  }

  // So does uploading again what is retained, exactly when the key verifies for the time of the first retention.
  lemma UploadRepeats(cfg: Config, s: Store, e: Env, id: string)
    requires Inv(cfg, s) && id in s.artifacts && s.artifacts[id].attested.Some? && e.binding == None && e.metadata == None
    ensures var a := s.artifacts[id]; var m := a.attested.value.manifest;
      var r := Handle(cfg, s, UploadOp(e, m.agentId, m.commandId, m, a.content));
      && r.after == s && (r.outcome.Ok? <==> e.key(Some(a.attested.value.verifiedAt)) == None)
      && (r.outcome.Ok? ==> r.outcome.reply == Receipt(id, m.sha256))
  {
    hide WithinBudget, FramesOk, RetainFits;
    assert ArtifactOk(cfg, s, id);
    if id in s.sessions { assert SessionOk(s, id); }
  }

  // Exactly when a one-shot upload of evidence not yet retained succeeds; then exactly it is retained.
  lemma UploadExactly(cfg: Config, s: Store, e: Env, m: Manifest, content: Bytes)
    requires Clean(e) && m.artifactId !in s.artifacts
    ensures var r := Handle(cfg, s, UploadOp(e, m.agentId, m.commandId, m, content));
      && (r.outcome.Ok? <==>
            Decodes(cfg, m, content) && !(m.artifactId in s.sessions && s.sessions[m.artifactId].phase == Open)
            && RetainFits(cfg, s, m.commandId, |content|))
      && r.after == if r.outcome.Ok?
                    then s.(artifacts := s.artifacts[m.artifactId := Artifact(m.agentId, m.commandId, content, Some(Attestation(m, e.now)))])
                    else s
  {
    hide RetainFits, Decodes;
  }

  // ---- the budget tests are exact ----

  // A reservation is admitted exactly when every budget holds with it.
  lemma ReserveExactly(cfg: Config, s: Store, id: string, row: Session, t: Store)
    requires WithinBudget(cfg, s) && (id in s.sessions ==> s.sessions[id].phase != Open)
    requires row.phase == Open && row.agentId == row.manifest.agentId && row.commandId == row.manifest.commandId
    requires t.sessions == s.sessions[id := row] && t.artifacts == s.artifacts
    ensures ReserveFits(cfg, s, row.manifest, id in s.sessions) <==> WithinBudget(cfg, t)
  {
    hide SumOf;
    if ReserveFits(cfg, s, row.manifest, id in s.sessions) {
      ReserveKeepsBudget(cfg, s, id, row, t);
    }
    if WithinBudget(cfg, t) {
      SetSession(s, id, row, t);
      SetSessionAgent(s, id, row, t, row.agentId);
      SetSessionCommand(s, id, row, t, row.commandId);
      assert AgentBudget(t, row.agentId) && CommandBudget(t, row.commandId);
    }
  }

  // Evidence is retained exactly when every budget holds with it.
  lemma RetainExactly(cfg: Config, s: Store, id: string, a: Artifact, t: Store)
    requires WithinBudget(cfg, s) && id !in s.artifacts
    requires t.artifacts == s.artifacts[id := a] && t.sessions == s.sessions
    ensures RetainFits(cfg, s, a.commandId, |a.content|) <==> WithinBudget(cfg, t)
  {
    hide SumOf;
    if RetainFits(cfg, s, a.commandId, |a.content|) {
      RetainKeepsBudget(cfg, s, id, a, t);
    }
    if WithinBudget(cfg, t) {
      SumOfSet(s.artifacts, id, a, ArtifactOne);
      SumOfSet(s.artifacts, id, a, ArtifactSize);
      SumOfSet(s.artifacts, id, a, RetainedOne(a.commandId));
      SumOfSet(s.artifacts, id, a, RetainedSize(a.commandId));
      assert CommandBudget(t, a.commandId);
    }
  }

  // ---- what is refused ----

  // At its expiry a session takes no chunk and no completion; it is expired and its chunks are gone.
  lemma ExpiredUnusable(cfg: Config, s: Store, op: Op)
    requires Inv(cfg, s) && (op.ChunkOp? || op.CompleteOp?)
    requires Target(op) in s.sessions && s.sessions[Target(op)].phase == Open && s.sessions[Target(op)].expiresAt <= op.env.now
    ensures var r := Handle(cfg, s, op); var id := Target(op);
      && r.outcome.Refused? && id in r.after.sessions && r.after.sessions[id].phase == Expired
      && forall off: nat :: (id, off) !in r.after.chunks
  {
    hide WithinBudget, FramesOk, RetainSigned;
  }

  // A refused binding refuses every request.
  lemma BindingRefuses(cfg: Config, s: Store, op: Op)
    requires op.env.binding.Some?
    ensures Handle(cfg, s, op).outcome.Refused?
  {
    hide RetainFits, ReserveFits, Decodes, KeyCheck;
  }

  // Refused metadata leaves the evidence as it is, and earns no receipt.
  lemma MetadataRefuses(cfg: Config, s: Store, op: Op)
    requires Inv(cfg, s) && op.env.metadata.Some?
    ensures var r := Handle(cfg, s, op); r.after.artifacts == s.artifacts && !(r.outcome.Ok? && r.outcome.reply.Receipt?)
  {
    hide Inv, RetainSigned, ReserveFits, KeyCheck, Binding, Assembled, PutChunk, LoadRefusal;
    forall x: Store, a: string, c: string, m: Manifest, content: Bytes, admitted: Option<int>
      ensures RetainSigned(cfg, x, op.env, a, c, m, content, admitted).outcome.Refused?
        && RetainSigned(cfg, x, op.env, a, c, m, content, admitted).after == x
    {
      MetadataRetains(cfg, x, op.env, a, c, m, content, admitted);
    }
    if op.ChunkOp? {
      ChunkTrue(cfg, s, op.env, op.agentId, op.commandId, op.artifactId, op.offset, op.digest, op.data);
      PutChunkCases(cfg, s, op.env, op.agentId, op.commandId, op.artifactId, op.offset, op.digest, op.data);
    }
  }

  lemma MetadataRetains(cfg: Config, s: Store, e: Env, a: string, c: string, m: Manifest, content: Bytes, admitted: Option<int>)
    requires e.metadata.Some?
    ensures var r := RetainSigned(cfg, s, e, a, c, m, content, admitted); r.outcome.Refused? && r.after == s
  {
    hide RetainFits, Decodes, KeyCheck, Binding;
  }

  // Why a request is refused: an unknown or foreign session is not found, a wrong frame is unprocessable, a frame out
  // of its turn or different from the stored one conflicts.
  lemma ChunkReasons(cfg: Config, s: Store, op: Op)
    requires op.ChunkOp?
    ensures var id := op.artifactId; var r := Handle(cfg, s, op).outcome;
      if !(id in s.sessions && s.sessions[id].agentId == op.agentId && s.sessions[id].commandId == op.commandId) then r == Refused(NotFound)
      else LoadRefusal(s, op.env, op.agentId, op.commandId, id) == None ==>
        var row := s.sessions[id]; var size := row.manifest.contentBytes;
        var frame := 0 <= op.offset < size && op.offset % CHUNK_BYTES == 0 && |op.data| == Min(CHUNK_BYTES, size - op.offset);
        && (!frame || cfg.sha256(op.data) != op.digest ==> r == Refused(Unprocessable))
        && (r.Refused? ==> r == Refused(Unprocessable) || r == Refused(Conflict))
  {
    hide KeyCheck, Binding;
  }

  // A budget that does not hold is named as the reason, when nothing else stands against the request.
  lemma BudgetReasons(cfg: Config, s: Store, e: Env, m: Manifest, content: Bytes)
    requires e.binding == None && e.key(None) == None && m.artifactId !in s.artifacts
    ensures var x := Expire(s, e.now);
      var free := m.artifactId !in x.sessions || (x.sessions[m.artifactId].phase == Expired && x.sessions[m.artifactId].manifest == m);
      free && !ReserveFits(cfg, x, m, m.artifactId in x.sessions) ==>
        Handle(cfg, s, AdmitOp(e, m.agentId, m.commandId, m)).outcome == Refused(BudgetExhausted)
    ensures (Decodes(cfg, m, content) && !(m.artifactId in s.sessions && s.sessions[m.artifactId].phase == Open)
             && !RetainFits(cfg, s, m.commandId, |content|)) ==>
        Handle(cfg, s, UploadOp(e, m.agentId, m.commandId, m, content)).outcome == Refused(BudgetExhausted)
  {
    hide ReserveFits, RetainFits, Decodes;
  }

  // A session admits only its own manifest.
  lemma ManifestBound(cfg: Config, s: Store, op: Op)
    requires op.AdmitOp? && Target(op) in s.sessions && s.sessions[Target(op)].manifest != op.manifest
    ensures Handle(cfg, s, op).outcome.Refused?
  {
    hide RetainFits, ReserveFits, RetainSigned;
  }

  // Retained evidence never changes.
  lemma {:induction false} EvidenceKept(cfg: Config, s: Store, ops: seq<Op>, id: string)
    requires id in s.artifacts
    ensures var t := Run(cfg, s, ops); id in t.artifacts && t.artifacts[id] == s.artifacts[id]
  {
    hide Handle;
    if ops != [] {
      EvidenceKept(cfg, s, ops[..|ops| - 1], id);
      HandleKeepsEvidence(cfg, Run(cfg, s, ops[..|ops| - 1]), ops[|ops| - 1], id);
    }
  }

  lemma HandleKeepsEvidence(cfg: Config, s: Store, op: Op, id: string)
    requires id in s.artifacts
    ensures var t := Handle(cfg, s, op).after; id in t.artifacts && t.artifacts[id] == s.artifacts[id]
  {
    hide RetainSigned, ReserveFits, KeyCheck, Binding, Assembled;
    forall x: Store, e: Env, a: string, c: string, m: Manifest, content: Bytes, admitted: Option<int> | id in x.artifacts
      ensures var t := RetainSigned(cfg, x, e, a, c, m, content, admitted).after; id in t.artifacts && t.artifacts[id] == x.artifacts[id]
    {
      RetainKeepsEvidence(cfg, x, e, a, c, m, content, admitted, id);
    }
  }

  lemma RetainKeepsEvidence(cfg: Config, s: Store, e: Env, a: string, c: string, m: Manifest, content: Bytes, admitted: Option<int>, id: string)
    requires id in s.artifacts
    ensures var t := RetainSigned(cfg, s, e, a, c, m, content, admitted).after; id in t.artifacts && t.artifacts[id] == s.artifacts[id]
  {
    hide RetainFits, Decodes, KeyCheck, Binding;
  }
}
