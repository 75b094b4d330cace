// Transfers and signing keys together: which sessions a retired key may finish.
// manager/artifact_keys.py (verify_manifest) as manager/artifact_transfers.py uses it.
module SignedTransfers {
  import opened Aggregates
  import T = Transfers
  import TI = TransferInvariants
  import K = Keys

  // The key tables of every agent, empty for one that never enrolled. Nonces and decisions are filed once for all
  // agents.
  datatype System = System(
    store: T.Store, agents: map<string, K.State>,
    nonces: map<string, K.Nonce>, decisions: map<(string, string), string>)

  function KeysOf(sys: System, agent: string): K.State {
    (if agent in sys.agents then sys.agents[agent] else K.EMPTY).(nonces := sys.nonces, decisions := sys.decisions)
  }

  ghost predicate KeysInv(sys: System) { forall a :: a in sys.agents ==> K.Inv(sys.agents[a]) }

  function Answer(d: Option<K.Denial>): Option<T.Refusal> {
    match d
    case None => None
    case Some(x) => Some(if x == K.BadSignature then T.Unprocessable else T.Forbidden)
  }

  // What the key tables answer about a manifest's key, asked with an admission time.
  function KeyAnswers(ks: K.State, key: string, host: string, signed: bool): Option<int> -> Option<T.Refusal> {
    (admitted: Option<int>) => Answer(K.Verify(ks, key, host, admitted, signed))
  }

  // The key that a request depends on: that of the manifest it carries, or of its session.
  function KeyOf(s: T.Store, op: T.Op): string {
    match op
    case AdmitOp(_, _, _, m) => m.keyId
    case UploadOp(_, _, _, m, _) => m.keyId
    case ChunkOp(_, _, _, id, _, _, _) => if id in s.sessions then s.sessions[id].manifest.keyId else ""
    case CompleteOp(_, _, _, id, _) =>
      if id in s.sessions then s.sessions[id].manifest.keyId
      else if T.AttestedBy(s, id).Some? then T.AttestedBy(s, id).value.manifest.keyId else ""
  }

  // The same request, with the key tables of the agent that makes it answering for its key.
  function Bound(sys: System, op: T.Op, host: string, signed: bool): T.Op {
    op.(env := op.env.(key := KeyAnswers(KeysOf(sys, op.agentId), KeyOf(sys.store, op), host, signed)))
  }

  datatype Op = Transfer(request: T.Op, host: string, signed: bool) | Identity(agent: string, change: K.Op)

  function Now(op: Op): int {
    match op
    case Transfer(r, _, _) => r.env.now
    case Identity(_, c) => c.now
  }

  ghost function Step(cfg: T.Config, sys: System, op: Op): System {
    match op
    case Transfer(r, host, signed) => sys.(store := T.Handle(cfg, sys.store, Bound(sys, r, host, signed)).after)
    case Identity(agent, c) =>
      var t := K.Step(KeysOf(sys, agent), c);
      sys.(agents := sys.agents[agent := t], nonces := t.nonces, decisions := t.decisions)
  }

  ghost function Run(cfg: T.Config, sys: System, ops: seq<Op>): System {
    if ops == [] then sys else Step(cfg, Run(cfg, sys, ops[..|ops| - 1]), ops[|ops| - 1])
  }

  // ---- which sessions a request leaves open ----

  predicate IsOpen(s: T.Store, id: string) { id in s.sessions && s.sessions[id].phase == T.Open }

  // Session id was open before under the same manifest and admission.
  predicate WasOpen(s: T.Store, t: T.Store, id: string)
    requires IsOpen(t, id)
  {
    IsOpen(s, id) && t.sessions[id].manifest == s.sessions[id].manifest && t.sessions[id].admittedAt == s.sessions[id].admittedAt
  }

  // Session id was opened by this admission, under a key that may sign new work.
  predicate JustOpened(t: T.Store, op: T.Op, id: string)
    requires IsOpen(t, id)
  {
    && op.AdmitOp? && op.manifest.artifactId == id && t.sessions[id].manifest == op.manifest && op.manifest.agentId == op.agentId
    && t.sessions[id].admittedAt == op.env.now && op.env.key(None) == None
  }

  lemma OpenOnlyByAdmission(cfg: T.Config, s: T.Store, op: T.Op, id: string)
    ensures var t := T.Handle(cfg, s, op).after; IsOpen(t, id) ==> WasOpen(s, t, id) || JustOpened(t, op, id)
  {
    hide T.RetainFits, T.ReserveFits, T.Admit, T.RetainSigned, T.CompleteTransfer, T.PutChunk;
    match op
    case AdmitOp(e, a, c, m) => AdmitOpens(cfg, s, op, id);
    case ChunkOp(e, a, c, aid, off, d, data) => ChunkOpens(cfg, s, op, id);
    case CompleteOp(e, a, c, aid, d) => CompleteOpens(cfg, s, op, id);
    case UploadOp(e, a, c, m, content) => RetainOpens(cfg, s, e, a, c, m, content, None);
  }

  lemma AdmitOpens(cfg: T.Config, s: T.Store, op: T.Op, id: string)
    requires op.AdmitOp?
    ensures var t := T.Admit(cfg, s, op.env, op.agentId, op.commandId, op.manifest).after;
      IsOpen(t, id) ==> WasOpen(s, t, id) || JustOpened(t, op, id)
  {
    hide T.ReserveFits, T.RetainFits, T.RetainSigned;
    RetainedOpens(cfg, T.Expire(s, op.env.now), op);
  }

  lemma RetainedOpens(cfg: T.Config, s: T.Store, op: T.Op)
    requires op.AdmitOp?
    ensures T.AttestedBy(s, op.manifest.artifactId).Some? ==>
      T.Retained(cfg, s, op.env, op.agentId, op.commandId, op.manifest).after.sessions == s.sessions
  {
    hide T.RetainFits;
  }

  lemma ChunkOpens(cfg: T.Config, s: T.Store, op: T.Op, id: string)
    requires op.ChunkOp?
    ensures var t := T.PutChunk(cfg, s, op.env, op.agentId, op.commandId, op.artifactId, op.offset, op.digest, op.data).after;
      IsOpen(t, id) ==> WasOpen(s, t, id)
  {
  }

  lemma RetainOpens(cfg: T.Config, s: T.Store, e: T.Env, a: string, c: string, m: T.Manifest, content: Bytes, admitted: Option<int>)
    ensures T.RetainSigned(cfg, s, e, a, c, m, content, admitted).after.sessions == s.sessions
  {
    hide T.RetainFits;
  }

  lemma CompleteOpens(cfg: T.Config, s: T.Store, op: T.Op, id: string)
    requires op.CompleteOp?
    ensures var t := T.CompleteTransfer(cfg, s, op.env, op.agentId, op.commandId, op.artifactId, op.manifestDigest).after;
      IsOpen(t, id) ==> WasOpen(s, t, id)
  {
    hide T.RetainFits;
  }

  // ---- retirement and open sessions ----

  // Every open session was admitted by now, under a known key of its agent, and not after that key's retirement.
  ghost predicate Punctual(sys: System, now: int) {
    forall id :: IsOpen(sys.store, id) ==> PunctualRow(sys, sys.store.sessions[id], now)
  }

  predicate PunctualRow(sys: System, row: T.Session, now: int) {
    var ks := KeysOf(sys, row.manifest.agentId).keys;
    && row.admittedAt <= now
    && row.manifest.keyId in ks
    && (ks[row.manifest.keyId].retiredAt.Some? ==> row.admittedAt <= ks[row.manifest.keyId].retiredAt.value)
  }

  lemma VerifiedKeyLive(ks: K.State, key: string, host: string, signed: bool)
    ensures KeyAnswers(ks, key, host, signed)(None) == None ==> key in ks.keys && ks.keys[key].retiredAt.None?
  {
  }

  // A key retires no earlier than now, once.
  lemma RetiresNow(ks: K.State, c: K.Op, key: string)
    requires K.Inv(ks) && key in ks.keys
    ensures var after := K.Step(ks, c).keys;
      key in after && (after[key].retiredAt == ks.keys[key].retiredAt || after[key].retiredAt == Some(c.now))
  {
    hide K.Inv, K.IsCurrent;
    if c.Approve? {
      hide K.Step;
      K.ApproveRefused(ks, c.now, c.request);
      if K.ApprovalDue(ks, c.now, c.request) {
        K.ApproveIs(ks, c.now, c.request);
        K.OldKeyUnmarked(ks, c.now, c.request);
      }
    }
  }

  lemma StepPunctual(cfg: T.Config, sys: System, op: Op, before: int)
    requires KeysInv(sys) && Punctual(sys, before) && before <= Now(op)
    ensures Punctual(Step(cfg, sys, op), Now(op)) && KeysInv(Step(cfg, sys, op))
  {
    hide K.Inv, K.Step, T.Handle;
    var after := Step(cfg, sys, op);
    match op
    case Transfer(r, host, signed) =>
      forall id | IsOpen(after.store, id) ensures PunctualRow(after, after.store.sessions[id], Now(op)) {
        OpenOnlyByAdmission(cfg, sys.store, Bound(sys, r, host, signed), id);
        VerifiedKeyLive(KeysOf(sys, r.agentId), KeyOf(sys.store, r), host, signed);
      }
    case Identity(agent, c) =>
      KeysOfInv(sys, agent);
      K.StepInv(KeysOf(sys, agent), c);
      forall id | IsOpen(after.store, id) ensures PunctualRow(after, after.store.sessions[id], Now(op)) {
        var row := sys.store.sessions[id];
        assert PunctualRow(sys, row, before);
        if row.manifest.agentId == agent { RetiresNow(KeysOf(sys, agent), c, row.manifest.keyId); }
      }
  }

  lemma KeysOfInv(sys: System, agent: string)
    requires KeysInv(sys)
    ensures K.Inv(KeysOf(sys, agent))
  {
    if agent in sys.agents { K.SameKeys(sys.agents[agent], KeysOf(sys, agent)); }
  }

  // Whatever mix of transfers, rotations, compromises and revocations of any agents, with a clock that never goes
  // back: no session is ever open under a key that had retired before the session was admitted.
  lemma {:induction false} RunPunctual(cfg: T.Config, sys: System, ops: seq<Op>, start: int)
    requires KeysInv(sys) && sys.store.sessions == map[] && Monotone(ops, Now, start)
    ensures KeysInv(Run(cfg, sys, ops)) && Punctual(Run(cfg, sys, ops), Clock(ops, Now, start))
  {
    hide KeysInv, Step;
    if ops != [] {
      var less := ops[..|ops| - 1];
      RunPunctual(cfg, sys, less, start);
      MonotonePrefix(ops, Now, start);
      StepPunctual(cfg, Run(cfg, sys, less), ops[|ops| - 1], Clock(less, Now, start));
    }
  }

  // So retirement alone never stops a session in progress: unless the key is compromised or the enrollment
  // revoked, the key of every open session still verifies for it.
  lemma RetirementNeverStrands(sys: System, now: int, id: string, host: string)
    requires Punctual(sys, now) && IsOpen(sys.store, id)
    requires var ks := KeysOf(sys, sys.store.sessions[id].manifest.agentId);
      var k := ks.keys[sys.store.sessions[id].manifest.keyId];
      && k.compromisedAt.None? && k.host == host
      && ks.enrolled.Some? && ks.enrolled.value.host == host && ks.enrolled.value.revokedAt.None?
    ensures var row := sys.store.sessions[id];
      KeyAnswers(KeysOf(sys, row.manifest.agentId), row.manifest.keyId, host, true)(Some(row.admittedAt)) == None
  {
    assert PunctualRow(sys, sys.store.sessions[id], now);
  }

  // A retired key opens nothing: neither a new session nor a restart of an expired one.
  lemma RetiredKeyOpensNothing(cfg: T.Config, sys: System, op: T.Op, host: string, signed: bool, id: string)
    requires op.AdmitOp?
    requires var ks := KeysOf(sys, op.agentId).keys; op.manifest.keyId in ks && ks[op.manifest.keyId].retiredAt.Some?
    requires IsOpen(T.Handle(cfg, sys.store, Bound(sys, op, host, signed)).after, id)
    ensures WasOpen(sys.store, T.Handle(cfg, sys.store, Bound(sys, op, host, signed)).after, id)
  {
    hide T.Handle;
    OpenOnlyByAdmission(cfg, sys.store, Bound(sys, op, host, signed), id);
    VerifiedKeyLive(KeysOf(sys, op.agentId), op.manifest.keyId, host, signed);
  }

  // A key unknown to the agent, compromised or of another host, a revoked enrollment or a wrong signature neither
  // opens, feeds nor finishes a session, and retains nothing.
  lemma UntrustedKeyRefused(cfg: T.Config, sys: System, op: T.Op, host: string, signed: bool)
    requires var key := KeyOf(sys.store, op); var ks := KeysOf(sys, op.agentId);
      || !signed || key !in ks.keys || ks.keys[key].compromisedAt.Some? || ks.keys[key].host != host
      || ks.enrolled.None? || ks.enrolled.value.host != host || ks.enrolled.value.revokedAt.Some?
    ensures T.Handle(cfg, sys.store, Bound(sys, op, host, signed)).outcome.Refused?
  {
    hide T.RetainFits, T.ReserveFits;
    var b := Bound(sys, op, host, signed);
    assert forall t :: b.env.key(t).Some?;
  }

  // ---- one rotation per nonce, among all agents ----

  ghost predicate Admits(sys: System, op: Op) { op.Identity? && K.Admits(KeysOf(sys, op.agent), op.change) }

  predicate Spent(sys: System, nonce: string) { nonce in sys.nonces && sys.nonces[nonce].consumed }

  lemma StepSpent(cfg: T.Config, sys: System, op: Op, nonce: string)
    ensures Spent(sys, nonce) ==> Spent(Step(cfg, sys, op), nonce)
    ensures Admits(sys, op) ==> Spent(Step(cfg, sys, op), op.change.nonce) && !Spent(sys, op.change.nonce)
  {
    hide K.Step, T.Handle, K.Admits;
    if op.Identity? {
      AdmitsRotate(KeysOf(sys, op.agent), op.change);
      K.StepSpent(KeysOf(sys, op.agent), op.change, nonce);
    }
  }

  lemma AdmitsRotate(ks: K.State, c: K.Op)
    ensures K.Admits(ks, c) ==> c.Rotate?
  {
  }

  lemma {:induction false} SpentStays(cfg: T.Config, sys: System, ops: seq<Op>, i: nat, nonce: string)
    requires i <= |ops| && Spent(Run(cfg, sys, ops[..i]), nonce)
    ensures Spent(Run(cfg, sys, ops), nonce)
    decreases |ops| - i
  {
    hide Step, Spent;
    if i == |ops| {
      assert ops[..i] == ops;
    } else {
      assert ops[..i + 1][..i] == ops[..i];
      StepSpent(cfg, Run(cfg, sys, ops[..i]), ops[i], nonce);
      SpentStays(cfg, sys, ops, i + 1, nonce);
    }
  }

  // In every run of the whole system, no two stored rotation requests of any agents were proven with one nonce.
  lemma OneRotationPerNonce(cfg: T.Config, sys: System, ops: seq<Op>, i: nat, j: nat)
    requires i < j < |ops| && Admits(Run(cfg, sys, ops[..i]), ops[i]) && Admits(Run(cfg, sys, ops[..j]), ops[j])
    ensures ops[i].change.nonce != ops[j].change.nonce
  {
    hide Step, Spent, K.Admits;
    AdmitsRotate(KeysOf(Run(cfg, sys, ops[..i]), ops[i].agent), ops[i].change);
    AdmitsRotate(KeysOf(Run(cfg, sys, ops[..j]), ops[j].agent), ops[j].change);
    StepSpent(cfg, Run(cfg, sys, ops[..i]), ops[i], ops[i].change.nonce);
    assert ops[..i + 1][..i] == ops[..i];
    assert ops[..j][..i + 1] == ops[..i + 1];
    SpentStays(cfg, sys, ops[..j], i + 1, ops[i].change.nonce);
    StepSpent(cfg, Run(cfg, sys, ops[..j]), ops[j], ops[j].change.nonce);
  }

  // ---- decisions reach the transfers ----

  lemma LaterSelf(ks: K.State, other: K.State)
    requires other == ks.(nonces := other.nonces, decisions := other.decisions)
    ensures K.Later(ks, other)
  {
  }

  lemma StepKeysLater(cfg: T.Config, sys: System, op: Op, agent: string)
    requires KeysInv(sys)
    ensures K.Later(KeysOf(sys, agent), KeysOf(Step(cfg, sys, op), agent))
  {
    hide K.Inv, K.Step, K.Later, T.Handle;
    if op.Identity? && op.agent == agent {
      KeysOfInv(sys, agent);
      K.StepLater(KeysOf(sys, agent), op.change);
    } else {
      LaterSelf(KeysOf(sys, agent), KeysOf(Step(cfg, sys, op), agent));
    }
  }

  lemma StepKeysInv(cfg: T.Config, sys: System, op: Op)
    requires KeysInv(sys)
    ensures KeysInv(Step(cfg, sys, op))
  {
    hide K.Inv, K.Step, T.Handle;
    if op.Identity? {
      KeysOfInv(sys, op.agent);
      K.StepInv(KeysOf(sys, op.agent), op.change);
    }
  }

  // Whatever all agents do, no agent's keys or enrollment move back.
  lemma {:induction false} RunKeysLater(cfg: T.Config, sys: System, ops: seq<Op>, agent: string)
    requires KeysInv(sys)
    ensures KeysInv(Run(cfg, sys, ops)) && K.Later(KeysOf(sys, agent), KeysOf(Run(cfg, sys, ops), agent))
  {
    hide KeysInv, Step, K.Later, KeysOf;
    if ops == [] {
      LaterSelf(KeysOf(sys, agent), KeysOf(sys, agent));
    } else {
      var less, last := ops[..|ops| - 1], ops[|ops| - 1];
      RunKeysLater(cfg, sys, less, agent);
      var mid := Run(cfg, sys, less);
      StepKeysInv(cfg, mid, last);
      StepKeysLater(cfg, mid, last, agent);
      K.LaterTrans(KeysOf(sys, agent), KeysOf(mid, agent), KeysOf(Step(cfg, mid, last), agent));
    }
  }

  // After the first decision to compromise a key, every request of its agent that depends on the key is refused, in
  // every run.
  lemma CompromiseStopsTransfers(cfg: T.Config, sys: System, agent: string, c: K.Op, ops: seq<Op>, r: T.Op, host: string, signed: bool)
    requires KeysInv(sys) && c.Compromise? && (c.actor, c.request) !in sys.decisions
    requires KeysOf(sys, agent).enrolled.Some? && c.key in KeysOf(sys, agent).keys
    ensures var end := Run(cfg, Step(cfg, sys, Identity(agent, c)), ops);
      r.agentId == agent && KeyOf(end.store, r) == c.key ==> T.Handle(cfg, end.store, Bound(end, r, host, signed)).outcome.Refused?
  {
    hide K.Inv, K.Step, T.Handle, Run, KeyOf;
    var first := Step(cfg, sys, Identity(agent, c));
    K.CompromiseMarks(KeysOf(sys, agent), c);
    StepKeysInv(cfg, sys, Identity(agent, c));
    RunKeysLater(cfg, first, ops, agent);
    var end := Run(cfg, first, ops);
    assert K.KeyLater(KeysOf(first, agent).keys[c.key], KeysOf(end, agent).keys[c.key]);
    if r.agentId == agent && KeyOf(end.store, r) == c.key { UntrustedKeyRefused(cfg, end, r, host, signed); }
  }

  // After the first revocation, every request of the agent is refused, in every run.
  lemma RevocationStopsTransfers(cfg: T.Config, sys: System, agent: string, c: K.Op, ops: seq<Op>, r: T.Op, host: string, signed: bool)
    requires KeysInv(sys) && c.Revoke? && (c.actor, c.request) !in sys.decisions && KeysOf(sys, agent).enrolled.Some?
    requires r.agentId == agent
    ensures var end := Run(cfg, Step(cfg, sys, Identity(agent, c)), ops);
      T.Handle(cfg, end.store, Bound(end, r, host, signed)).outcome.Refused?
  {
    hide K.Step, T.Handle, Run, KeyOf, K.IsCurrent;
    var first := Step(cfg, sys, Identity(agent, c));
    KeysOfInv(sys, agent);
    K.RevokeMarks(KeysOf(sys, agent), c);
    StepKeysInv(cfg, sys, Identity(agent, c));
    RunKeysLater(cfg, first, ops, agent);
    UntrustedKeyRefused(cfg, Run(cfg, first, ops), r, host, signed);
  }
}
