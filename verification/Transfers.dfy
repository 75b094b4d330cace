// The resumable artifact transfer protocol and the quota it shares with one-shot uploads:
// manager/artifact_transfers.py, manager/response_artifacts.py and the tables of migrations 26-29.
//
// This module is the simple form. Its state holds only the three tables; every budget is
// a sum or a count over their rows. TransferService.dfy is the form with in-place updates and
// trigger-kept counters, proved equal to this one.
module Transfers {
  import opened Aggregates

  const CHUNK_BYTES: nat := 65536
  const MAX_OPEN: nat := 128
  const MAX_AGENT_OPEN: nat := 4
  const SESSION_LIFETIME: nat := 86400
  const MAX_CONTENT: nat := 1048576
  const MAX_COMMAND_BYTES: nat := 4 * 1048576
  const MAX_COMMAND_COUNT: nat := 8
  const MAX_GLOBAL_COUNT: nat := 100000

  type Size = n: int | 1 <= n <= MAX_CONTENT witness 1

  // A signed manifest. `rest` stands for the signed fields nothing here looks at.
  datatype Manifest = Manifest(
    artifactId: string, agentId: string, commandId: string,
    contentBytes: Size, sha256: string, keyId: string, rest: string)

  datatype Phase = Open | Complete | Expired

  datatype Session = Session(
    agentId: string, commandId: string, manifest: Manifest,
    received: nat, phase: Phase, admittedAt: int, expiresAt: int)

  datatype Attestation = Attestation(manifest: Manifest, verifiedAt: int)

  // A retained artifact; legacy evidence carries no attestation.
  datatype Artifact = Artifact(
    agentId: string, commandId: string, content: Bytes, attested: Option<Attestation>)

  datatype Store = Store(
    sessions: map<string, Session>,
    chunks: map<(string, nat), Bytes>,
    artifacts: map<string, Artifact>)

  datatype Refusal = NotFound | Conflict | Forbidden | Unprocessable | BudgetExhausted | Unavailable

  datatype Reply =
    | Progress(received: nat, complete: bool, expiresAt: Option<int>)
    | Receipt(artifactId: string, sha256: string)

  datatype Outcome = Ok(reply: Reply) | Refused(reason: Refusal)

  datatype Stepped = Stepped(outcome: Outcome, after: Store)

  // Fixed for a run: the storage quota, SHA-256, the bounded-JSON test of decoded_content and the
  // digest of a canonical manifest.
  datatype Config = Config(
    quota: nat, sha256: Bytes -> string, wellFormed: Bytes -> bool, manifestDigest: Manifest -> string)

  // What tables outside this model answer during one request: the clock, validate_binding, the key
  // tables (asked with an admission time) and validate_retained_manifest.
  datatype Env = Env(
    now: int, binding: Option<Refusal>, key: Option<int> -> Option<Refusal>, metadata: Option<Refusal>)

  // ---- aggregates ----

  function OpenOne(r: Session): nat { if r.phase == Open then 1 else 0 }
  function OpenSize(r: Session): nat { if r.phase == Open then r.manifest.contentBytes else 0 }
  function AgentOne(a: string): Session -> nat {
    (r: Session) => if r.phase == Open && r.agentId == a then 1 else 0
  }
  function CommandOne(c: string): Session -> nat {
    (r: Session) => if r.phase == Open && r.commandId == c then 1 else 0
  }
  function CommandSize(c: string): Session -> nat {
    (r: Session) => if r.phase == Open && r.commandId == c then r.manifest.contentBytes else 0
  }
  function ArtifactOne(a: Artifact): nat { 1 }
  function ArtifactSize(a: Artifact): nat { |a.content| }
  function RetainedOne(c: string): Artifact -> nat {
    (a: Artifact) => if a.commandId == c then 1 else 0
  }
  function RetainedSize(c: string): Artifact -> nat {
    (a: Artifact) => if a.commandId == c then |a.content| else 0
  }

  ghost function OpenCount(s: Store): nat { SumOf(s.sessions, OpenOne) }
  ghost function OpenBytes(s: Store): nat { SumOf(s.sessions, OpenSize) }
  ghost function AgentOpen(s: Store, a: string): nat { SumOf(s.sessions, AgentOne(a)) }
  ghost function RetainedCount(s: Store): nat { SumOf(s.artifacts, ArtifactOne) }
  ghost function RetainedBytes(s: Store): nat { SumOf(s.artifacts, ArtifactSize) }
  ghost function CommandCount(s: Store, c: string): nat {
    SumOf(s.artifacts, RetainedOne(c)) + SumOf(s.sessions, CommandOne(c))
  }
  ghost function CommandBytes(s: Store, c: string): nat {
    SumOf(s.artifacts, RetainedSize(c)) + SumOf(s.sessions, CommandSize(c))
  }

  // The budgets: global, per agent and per command; all of them hold at once.
  ghost predicate GlobalBudget(cfg: Config, s: Store) {
    && OpenCount(s) <= MAX_OPEN
    && RetainedCount(s) + OpenCount(s) <= MAX_GLOBAL_COUNT
    && RetainedBytes(s) + OpenBytes(s) <= cfg.quota
    && |s.sessions| <= MAX_GLOBAL_COUNT
  }

  ghost predicate AgentBudget(s: Store, a: string) { AgentOpen(s, a) <= MAX_AGENT_OPEN }

  ghost predicate CommandBudget(s: Store, c: string) {
    CommandCount(s, c) <= MAX_COMMAND_COUNT && CommandBytes(s, c) <= MAX_COMMAND_BYTES
  }

  ghost predicate WithinBudget(cfg: Config, s: Store) {
    && GlobalBudget(cfg, s)
    && (forall a :: AgentBudget(s, a))
    && (forall c :: CommandBudget(s, c))
  }

  // The test of _reserve.
  ghost predicate ReserveFits(cfg: Config, s: Store, m: Manifest, existing: bool) {
    && AgentOpen(s, m.agentId) < MAX_AGENT_OPEN
    && OpenCount(s) < MAX_OPEN
    && (existing || |s.sessions| < MAX_GLOBAL_COUNT)
    && CommandCount(s, m.commandId) < MAX_COMMAND_COUNT
    && CommandBytes(s, m.commandId) + m.contentBytes <= MAX_COMMAND_BYTES
    && RetainedCount(s) + OpenCount(s) < MAX_GLOBAL_COUNT
    && RetainedBytes(s) + OpenBytes(s) + m.contentBytes <= cfg.quota
  }

  // The test of retain.
  ghost predicate RetainFits(cfg: Config, s: Store, c: string, size: nat) {
    && CommandCount(s, c) < MAX_COMMAND_COUNT
    && CommandBytes(s, c) + size <= MAX_COMMAND_BYTES
    && RetainedCount(s) + OpenCount(s) < MAX_GLOBAL_COUNT
    && RetainedBytes(s) + OpenBytes(s) + size <= cfg.quota
  }

  // ---- checks shared by the operations ----

  function Binding(e: Env, commandId: string, m: Manifest): Option<Refusal> {
    if e.binding.Some? then e.binding
    else if m.commandId != commandId then Some(Conflict)
    else None
  }

  // verify_manifest, asked with the admission time of the session, if there is one.
  function KeyCheck(e: Env, agentId: string, m: Manifest, admitted: Option<int>): Option<Refusal> {
    if m.agentId != agentId then Some(Forbidden) else e.key(admitted)
  }

  predicate Decodes(cfg: Config, m: Manifest, content: Bytes) {
    |content| == m.contentBytes && cfg.sha256(content) == m.sha256 && cfg.wellFormed(content)
  }

  function AttestedBy(s: Store, id: string): Option<Attestation> {
    if id in s.artifacts then s.artifacts[id].attested else None
  }

  function Refuse(s: Store, r: Refusal): Stepped { Stepped(Refused(r), s) }

  predicate Due(r: Session, now: int) { r.phase == Open && r.expiresAt <= now }

  // One complete expiry sweep.
  function Expire(s: Store, now: int): Store {
    s.(sessions := map id | id in s.sessions ::
         if Due(s.sessions[id], now) then s.sessions[id].(phase := Expired, received := 0) else s.sessions[id],
       chunks := map f | f in s.chunks && !(f.0 in s.sessions && Due(s.sessions[f.0], now)) :: s.chunks[f])
  }

  function FrameLength(size: nat, offset: int): int {
    if size - offset < CHUNK_BYTES then size - offset else CHUNK_BYTES
  }

  function FrameCount(size: nat): nat { (size + CHUNK_BYTES - 1) / CHUNK_BYTES }

  // The concatenation, by offset, of the first n frames stored for id.
  function Assembled(chunks: map<(string, nat), Bytes>, id: string, n: nat): Bytes {
    if n == 0 then [] else
      Assembled(chunks, id, n - 1)
      + if (id, (n - 1) * CHUNK_BYTES) in chunks then chunks[(id, (n - 1) * CHUNK_BYTES)] else []
  }

  // ---- operations: each is one transaction; a refusal keeps the state it was given ----

  ghost function RetainSigned(cfg: Config, s: Store, e: Env, agentId: string, commandId: string,
                              m: Manifest, content: Bytes, admitted: Option<int>): Stepped
  {
    var id := m.artifactId;
    var prior := AttestedBy(s, id);
    if prior.Some? && prior.value.manifest != m then Refuse(s, Conflict)
    else if prior.None? && id in s.artifacts then Refuse(s, Conflict)
    else
      var keyed := KeyCheck(e, agentId, m, if prior.Some? then Some(prior.value.verifiedAt) else admitted);
      if keyed.Some? then Refuse(s, keyed.value)
      else if !Decodes(cfg, m, content) then Refuse(s, Unprocessable)
      else if Binding(e, commandId, m).Some? then Refuse(s, Binding(e, commandId, m).value)
      else if id in s.sessions && s.sessions[id].phase == Open then Refuse(s, Conflict)
      else if id in s.artifacts then
        if s.artifacts[id].content != content then Refuse(s, Conflict)
        else if e.metadata.Some? then Refuse(s, e.metadata.value)
        else Stepped(Ok(Receipt(id, m.sha256)), s)
      else if !RetainFits(cfg, s, commandId, |content|) then Refuse(s, BudgetExhausted)
      else if e.metadata.Some? then Refuse(s, e.metadata.value)
      else
        Stepped(Ok(Receipt(id, m.sha256)),
                s.(artifacts := s.artifacts[id := Artifact(agentId, commandId, content, Some(Attestation(m, e.now)))]))
  }

  // _retained: answer from the signed artifact that already exists.
  ghost function Retained(cfg: Config, s: Store, e: Env, agentId: string, commandId: string, m: Manifest): Stepped
    requires AttestedBy(s, m.artifactId).Some?
  {
    if AttestedBy(s, m.artifactId).value.manifest != m then Refuse(s, Conflict)
    else RetainSigned(cfg, s, e, agentId, commandId, m, s.artifacts[m.artifactId].content, None)
  }

  ghost function Admit(cfg: Config, s0: Store, e: Env, agentId: string, commandId: string, m: Manifest): Stepped
  {
    if Binding(e, commandId, m).Some? then Refuse(s0, Binding(e, commandId, m).value)
    else
      var s := Expire(s0, e.now);
      var id := m.artifactId;
      var known := id in s.sessions;
      if known && s.sessions[id].manifest != m then Refuse(s, Conflict)
      else if AttestedBy(s, id).Some? then
        var r := Retained(cfg, s, e, agentId, commandId, m);
        if r.outcome.Refused? then r else Stepped(Ok(Progress(m.contentBytes, true, None)), s)
      else
        var live := known && s.sessions[id].phase == Open;
        var keyed := KeyCheck(e, agentId, m, if live then Some(s.sessions[id].admittedAt) else None);
        if keyed.Some? then Refuse(s, keyed.value)
        else if live then
          Stepped(Ok(Progress(s.sessions[id].received, false, Some(s.sessions[id].expiresAt))), s)
        else if known && s.sessions[id].phase == Complete then Refuse(s, Unavailable)
        else if id in s.artifacts then Refuse(s, Conflict)
        else if !ReserveFits(cfg, s, m, known) then Refuse(s, BudgetExhausted)
        else
          var expiry := e.now + SESSION_LIFETIME;
          var row := if known then s.sessions[id].(phase := Open, received := 0, admittedAt := e.now, expiresAt := expiry)
                     else Session(agentId, commandId, m, 0, Open, e.now, expiry);
          Stepped(Ok(Progress(0, false, Some(expiry))), s.(sessions := s.sessions[id := row]))
  }

  // _load: the reason to refuse, or None when the owned session may be used.
  function LoadRefusal(s: Store, e: Env, agentId: string, commandId: string, id: string): Option<Refusal>
  {
    if !(id in s.sessions && s.sessions[id].agentId == agentId && s.sessions[id].commandId == commandId) then
      Some(NotFound)
    else
      var row := s.sessions[id];
      if Binding(e, commandId, row.manifest).Some? then Binding(e, commandId, row.manifest)
      else if KeyCheck(e, agentId, row.manifest, Some(row.admittedAt)).Some? then
        KeyCheck(e, agentId, row.manifest, Some(row.admittedAt))
      else if row.phase == Expired || Due(row, e.now) then Some(Conflict)
      else None
  }

  predicate ChunkFits(size: nat, offset: int, data: Bytes) {
    && 0 <= offset
    && offset % CHUNK_BYTES == 0
    && 0 < FrameLength(size, offset)
    && |data| == FrameLength(size, offset)
  }

  // The next frame of a session is stored.
  function Extended(s: Store, id: string, offset: nat, data: Bytes): Store
    requires id in s.sessions
  {
    s.(chunks := s.chunks[(id, offset) := data],
       sessions := s.sessions[id := s.sessions[id].(received := offset + |data|)])
  }

  function PutChunk(cfg: Config, s: Store, e: Env, agentId: string, commandId: string,
                    id: string, offset: int, digest: string, data: Bytes): Stepped
  {
    var load := LoadRefusal(s, e, agentId, commandId, id);
    if load.Some? then Refuse(s, load.value)
    else
      var row := s.sessions[id];
      var size := row.manifest.contentBytes;
      if |data| == 0 || |data| > CHUNK_BYTES || cfg.sha256(data) != digest then Refuse(s, Unprocessable)
      else if !ChunkFits(size, offset, data) then Refuse(s, Unprocessable)
      else if row.phase == Complete then
        if id in s.artifacts && offset + |data| <= |s.artifacts[id].content|
           && s.artifacts[id].content[offset..offset + |data|] == data
        then Stepped(Ok(Progress(size, true, None)), s)
        else Refuse(s, Conflict)
      else if (id, offset) in s.chunks then
        if s.chunks[(id, offset)] != data then Refuse(s, Conflict)
        else Stepped(Ok(Progress(row.received, false, Some(row.expiresAt))), s)
      else if offset != row.received then Refuse(s, Conflict)
      else Stepped(Ok(Progress(offset + |data|, false, Some(row.expiresAt))), Extended(s, id, offset, data))
  }

  // Releasing the reservation of a fully received session, as complete does before it retains.
  function Released(s: Store, id: string): Store
    requires id in s.sessions
  {
    s.(sessions := s.sessions[id := s.sessions[id].(phase := Complete)])
  }

  function DropChunks(chunks: map<(string, nat), Bytes>, id: string): map<(string, nat), Bytes> {
    map f | f in chunks && f.0 != id :: chunks[f]
  }

  ghost function CompleteTransfer(cfg: Config, s: Store, e: Env, agentId: string, commandId: string,
                                  id: string, manifestDigest: string): Stepped
  {
    if id !in s.sessions then
      if AttestedBy(s, id).None? then Refuse(s, NotFound)
      else
        var m := AttestedBy(s, id).value.manifest;
        if cfg.manifestDigest(m) != manifestDigest then Refuse(s, Conflict)
        else if m.artifactId != id then Refuse(s, NotFound)  // no reachable attestation is filed under another id
        else Retained(cfg, s, e, agentId, commandId, m)
    else
      var load := LoadRefusal(s, e, agentId, commandId, id);
      if load.Some? then Refuse(s, load.value)
      else
        var row := s.sessions[id];
        var m := row.manifest;
        if cfg.manifestDigest(m) != manifestDigest then Refuse(s, Conflict)
        else if row.phase == Complete then
          if AttestedBy(s, m.artifactId).None? then Refuse(s, Unavailable)
          else Retained(cfg, s, e, agentId, commandId, m)
        else if row.received != m.contentBytes then Refuse(s, Conflict)
        else
          var content := Assembled(s.chunks, id, FrameCount(m.contentBytes));
          var r := RetainSigned(cfg, Released(s, id), e, agentId, commandId, m, content, Some(row.admittedAt));
          if r.outcome.Refused? then Refuse(s, r.outcome.reason)
          else Stepped(r.outcome, r.after.(chunks := DropChunks(s.chunks, id)))
  }

  // ---- requests: the routers turn a refused transfer into an expiry sweep ----

  datatype Op =
    | AdmitOp(env: Env, agentId: string, commandId: string, manifest: Manifest)
    | ChunkOp(env: Env, agentId: string, commandId: string, artifactId: string, offset: int, digest: string, data: Bytes)
    | CompleteOp(env: Env, agentId: string, commandId: string, artifactId: string, manifestDigest: string)
    | UploadOp(env: Env, agentId: string, commandId: string, manifest: Manifest, content: Bytes)

  ghost function Act(cfg: Config, s: Store, op: Op): Stepped {
    match op
    case AdmitOp(e, a, c, m) => Admit(cfg, s, e, a, c, m)
    case ChunkOp(e, a, c, id, off, d, data) => PutChunk(cfg, s, e, a, c, id, off, d, data)
    case CompleteOp(e, a, c, id, d) => CompleteTransfer(cfg, s, e, a, c, id, d)
    case UploadOp(e, a, c, m, content) => RetainSigned(cfg, s, e, a, c, m, content, None)
  }

  ghost function Handle(cfg: Config, s: Store, op: Op): Stepped {
    var r := Act(cfg, s, op);
    if r.outcome.Ok? then r
    else if op.UploadOp? then Refuse(s, r.outcome.reason)
    else Refuse(Expire(s, op.env.now), r.outcome.reason)
  }

  ghost function Run(cfg: Config, s: Store, ops: seq<Op>): Store {
    if ops == [] then s
    else Handle(cfg, Run(cfg, s, ops[..|ops| - 1]), ops[|ops| - 1]).after
  }
}
