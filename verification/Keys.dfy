// Artifact signing keys of one agent: manager/artifact_keys.py, manager/routers/artifact_keys.py and the
// key tables of migration 28 (every query filters by agent).
module Keys {
  import opened Aggregates

  datatype Key = Key(version: nat, host: string, validFrom: int, retiredAt: Option<int>, compromisedAt: Option<int>)
  datatype Enrollment = Enrollment(host: string, revokedAt: Option<int>)
  datatype Rotation = Rotation(oldKey: string, newKey: string, digest: string, approved: bool, expiresAt: int)
  datatype Nonce = Nonce(expiresAt: int, consumed: bool)

  datatype State = State(
    enrolled: Option<Enrollment>,
    keys: map<string, Key>,
    rotations: map<string, Rotation>,
    nonces: map<string, Nonce>,
    decisions: map<(string, string), string>)  // (actor, request) -> digest of the decided payload

  const EMPTY := State(None, map[], map[], map[], map[])

  // retired_at IS NULL AND compromised_at IS NULL
  predicate Unmarked(k: Key) { k.retiredAt.None? && k.compromisedAt.None? }

  // A key that current() can return.
  predicate Usable(s: State, id: string) {
    && id in s.keys && Unmarked(s.keys[id])
    && s.enrolled.Some? && s.enrolled.value.revokedAt.None? && s.enrolled.value.host == s.keys[id].host
  }

  // current(): the usable key of the highest version.
  predicate IsCurrent(s: State, id: string) {
    Usable(s, id) && forall j :: j in s.keys && Usable(s, j) ==> s.keys[j].version <= s.keys[id].version
  }

  // Inserting a key fails on its primary key, its version, or a second unmarked key.
  predicate Collides(keys: map<string, Key>, id: string, version: nat) {
    id in keys || exists j :: j in keys && (keys[j].version == version || Unmarked(keys[j]))
  }

  datatype Op =
    | Enroll(now: int, host: string, firstKey: Option<string>, allowed: bool)  // the key is optional
    | Challenge(now: int, nonce: string, expiresAt: int)
    | Rotate(now: int, request: string, digest: string, oldKey: string, newKey: string, nonce: string, proven: bool)
    | Approve(now: int, request: string)
    | Compromise(now: int, actor: string, request: string, digest: string, key: string)
    | Revoke(now: int, actor: string, request: string, digest: string)

  // request_rotation accepts a new request.
  predicate RotationAdmitted(s: State, now: int, request: string, oldKey: string, newKey: string, nonce: string, proven: bool) {
    && request !in s.rotations
    && IsCurrent(s, oldKey)
    && newKey !in s.keys
    && nonce in s.nonces && !s.nonces[nonce].consumed && s.nonces[nonce].expiresAt > now
    && proven
  }

  // approve_rotation goes ahead, up to the constraints of the key table.
  predicate ApprovalDue(s: State, now: int, request: string) {
    && request in s.rotations && !s.rotations[request].approved && s.rotations[request].expiresAt > now
    && IsCurrent(s, s.rotations[request].oldKey)
  }

  function Retired(k: Key, now: int): Key { k.(retiredAt := Some(now)) }

  function Step(s: State, op: Op): State {
    match op
    case Enroll(now, host, key, allowed) =>
      if !allowed || s.enrolled.Some? || (key.Some? && Collides(s.keys, key.value, 1)) then s
      else s.(enrolled := Some(Enrollment(host, None)),
              keys := if key.None? then s.keys else s.keys[key.value := Key(1, host, now, None, None)])
    case Challenge(now, nonce, expiresAt) =>
      if nonce in s.nonces then s else s.(nonces := s.nonces[nonce := Nonce(expiresAt, false)])
    case Rotate(now, request, digest, oldKey, newKey, nonce, proven) =>
      if !RotationAdmitted(s, now, request, oldKey, newKey, nonce, proven) then s
      else s.(nonces := s.nonces[nonce := s.nonces[nonce].(consumed := true)],
              rotations := s.rotations[request := Rotation(oldKey, newKey, digest, false, s.nonces[nonce].expiresAt)])
    case Approve(now, request) =>
      if !ApprovalDue(s, now, request) then s
      else
        var r := s.rotations[request];
        var prior := s.keys[r.oldKey];
        var keys := s.keys[r.oldKey := Retired(prior, now)];
        if Collides(keys, r.newKey, prior.version + 1) then s
        else s.(keys := keys[r.newKey := Key(prior.version + 1, prior.host, now, None, None)],
                rotations := s.rotations[request := r.(approved := true)])
    case Compromise(now, actor, request, digest, key) =>
      if (actor, request) in s.decisions || s.enrolled.None? || key !in s.keys then s
      else
        var keys := if s.keys[key].compromisedAt.None? then s.keys[key := s.keys[key].(compromisedAt := Some(now))] else s.keys;
        s.(keys := keys, decisions := s.decisions[(actor, request) := digest])
    case Revoke(now, actor, request, digest) =>
      if (actor, request) in s.decisions || s.enrolled.None? then s
      else
        var t := s.(decisions := s.decisions[(actor, request) := digest]);
        if s.enrolled.value.revokedAt.Some? then t
        else t.(enrolled := Some(s.enrolled.value.(revokedAt := Some(now))),
                keys := map k | k in s.keys :: if s.keys[k].retiredAt.None? then Retired(s.keys[k], now) else s.keys[k])
  }

  function Run(s: State, ops: seq<Op>): State {
    if ops == [] then s else Step(Run(s, ops[..|ops| - 1]), ops[|ops| - 1])
  }

  // ---- the invariant ----

  ghost predicate HasVersion(keys: map<string, Key>, v: int) {
    exists k :: k in keys && keys[k].version == v
  }

  // Versions are exactly 1..n: in range, none skipped, and no two keys share one.
  ghost predicate Versioned(keys: map<string, Key>) {
    && (forall k :: k in keys ==> 1 <= keys[k].version <= |keys|)
    && (forall v :: 1 <= v <= |keys| ==> HasVersion(keys, v))
    && (forall j, k :: j in keys && k in keys && keys[j].version == keys[k].version ==> j == k)
  }

  // Every key below the last version is retired.
  ghost predicate OnlyLastLive(keys: map<string, Key>) {
    forall k :: k in keys && keys[k].version < |keys| ==> keys[k].retiredAt.Some?
  }

  ghost predicate EnrollmentOk(s: State) {
    && (s.enrolled.None? ==> s.keys == map[] && s.rotations == map[])
    && (s.enrolled.Some? ==> forall k :: k in s.keys ==> s.keys[k].host == s.enrolled.value.host)
    && (s.enrolled.Some? && s.enrolled.value.revokedAt.Some? ==> forall k :: k in s.keys ==> s.keys[k].retiredAt.Some?)
  }

  // A pending rotation whose old key is still current names a key absent from history.
  ghost predicate RotationsFresh(s: State) {
    forall r :: r in s.rotations ==>
      && s.rotations[r].oldKey in s.keys
      && (!s.rotations[r].approved && IsCurrent(s, s.rotations[r].oldKey) ==> s.rotations[r].newKey !in s.keys)
  }

  ghost predicate Inv(s: State) {
    Versioned(s.keys) && OnlyLastLive(s.keys) && EnrollmentOk(s) && RotationsFresh(s)
  }

  // Under the invariant there is at most one unmarked key, and it has the last version.
  lemma UnmarkedIsLast(keys: map<string, Key>, k: string)
    requires Versioned(keys) && OnlyLastLive(keys) && k in keys && keys[k].retiredAt.None?
    ensures keys[k].version == |keys|
    ensures forall j :: j in keys && keys[j].retiredAt.None? ==> j == k
  {
  }

  // ---- approval ----

  lemma CardinalityAdd(keys: map<string, Key>, id: string, k: Key)
    ensures |keys[id := k]| == |keys| + if id in keys then 0 else 1
  {
    assert keys[id := k].Keys == keys.Keys + {id};
    assert |keys[id := k]| == |keys[id := k].Keys| && |keys| == |keys.Keys|;
  }

  // Approval never collides: the old key is the only unmarked one, its successor's version is new, and
  // the new key is absent from history.
  lemma ApprovalNeverCollides(s: State, now: int, request: string)
    requires Inv(s) && ApprovalDue(s, now, request)
    ensures var r := s.rotations[request];
      !Collides(s.keys[r.oldKey := Retired(s.keys[r.oldKey], now)], r.newKey, s.keys[r.oldKey].version + 1)
  {
    var r := s.rotations[request];
    UnmarkedIsLast(s.keys, r.oldKey);
  }

  function WithSuccessor(keys: map<string, Key>, prior: string, now: int, id: string): map<string, Key>
    requires prior in keys
  {
    keys[prior := Retired(keys[prior], now)][id := Key(keys[prior].version + 1, keys[prior].host, now, None, None)]
  }

  lemma SuccessorVersioned(keys: map<string, Key>, prior: string, now: int, id: string)
    requires Versioned(keys) && OnlyLastLive(keys) && prior in keys && keys[prior].version == |keys| && id !in keys
    ensures var after := WithSuccessor(keys, prior, now, id); Versioned(after) && OnlyLastLive(after)
  {
    hide HasVersion, WithSuccessor;
    var after := WithSuccessor(keys, prior, now, id);
    SuccessorSize(keys, prior, now, id);
    forall v | 1 <= v <= |after| ensures HasVersion(after, v) { SuccessorHas(keys, prior, now, id, v); }
    forall k | k in after ensures 1 <= after[k].version <= |after| && (after[k].version < |after| ==> after[k].retiredAt.Some?) {
      SuccessorKey(keys, prior, now, id, k);
    }
    forall j, k | j in after && k in after && after[j].version == after[k].version ensures j == k {
      SuccessorKey(keys, prior, now, id, j);
      SuccessorKey(keys, prior, now, id, k);
    }
  }

  // The successor has the next version; every other key is as before, and retired.
  lemma SuccessorKey(keys: map<string, Key>, prior: string, now: int, id: string, k: string)
    requires Versioned(keys) && OnlyLastLive(keys) && prior in keys && keys[prior].version == |keys| && id !in keys
    requires k in WithSuccessor(keys, prior, now, id)
    ensures var after := WithSuccessor(keys, prior, now, id);
      if k == id then after[k].version == |keys| + 1
      else k in keys && after[k].version == keys[k].version <= |keys| && after[k].retiredAt.Some?
  {
    hide HasVersion;
  }

  lemma SuccessorSize(keys: map<string, Key>, prior: string, now: int, id: string)
    requires prior in keys && id !in keys
    ensures |WithSuccessor(keys, prior, now, id)| == |keys| + 1
  {
    var mid := keys[prior := Retired(keys[prior], now)];
    CardinalityAdd(keys, prior, Retired(keys[prior], now));
    CardinalityAdd(mid, id, WithSuccessor(keys, prior, now, id)[id]);
  }

  lemma SuccessorHas(keys: map<string, Key>, prior: string, now: int, id: string, v: int)
    requires Versioned(keys) && prior in keys && keys[prior].version == |keys| && id !in keys && 1 <= v <= |keys| + 1
    ensures HasVersion(WithSuccessor(keys, prior, now, id), v)
  {
    var after := WithSuccessor(keys, prior, now, id);
    if v == |keys| + 1 {
      assert after[id].version == v;
    } else {
      assert HasVersion(keys, v);
      var k :| k in keys && keys[k].version == v;
      assert k in after && after[k].version == v;
    }
  }

  // What an approval that is due does.
  lemma ApproveIs(s: State, now: int, request: string)
    requires Inv(s) && ApprovalDue(s, now, request)
    ensures var r := s.rotations[request];
      Step(s, Approve(now, request)) ==
      s.(keys := WithSuccessor(s.keys, r.oldKey, now, r.newKey), rotations := s.rotations[request := r.(approved := true)])
  {
    ApprovalNeverCollides(s, now, request);
  }

  lemma ApproveInv(s: State, now: int, request: string)
    requires Inv(s) && ApprovalDue(s, now, request)
    ensures Inv(Step(s, Approve(now, request)))
  {
    hide Versioned, OnlyLastLive, Step;
    ApproveIs(s, now, request);
    var r := s.rotations[request];
    UnmarkedIsLast(s.keys, r.oldKey);
    SuccessorVersioned(s.keys, r.oldKey, now, r.newKey);
    var t := Step(s, Approve(now, request));
    forall q | q in t.rotations
      ensures t.rotations[q].oldKey in t.keys
      ensures !t.rotations[q].approved && IsCurrent(t, t.rotations[q].oldKey) ==> t.rotations[q].newKey !in t.keys
    {
      // No key known before the approval is current after it.
      assert t.rotations[q].oldKey in s.keys;
      assert Usable(t, r.newKey);
      NotCurrentAfter(s.keys, t, r.oldKey, t.rotations[q].oldKey);
    }
  }

  lemma NotCurrentAfter(before: map<string, Key>, t: State, prior: string, k: string)
    requires Versioned(before) && OnlyLastLive(before) && prior in before && Unmarked(before[prior]) && k in before
    requires k in t.keys && prior in t.keys && t.keys[prior].retiredAt.Some? && (k != prior ==> t.keys[k] == before[k])
    ensures !IsCurrent(t, k)
  {
    UnmarkedIsLast(before, prior);
  }

  // ---- the other operations ----

  // Marking keys never makes another key current.
  ghost predicate Marks(s: State, t: State) {
    && s.keys.Keys == t.keys.Keys
    && (forall k :: k in s.keys ==>
          && t.keys[k] == s.keys[k].(retiredAt := t.keys[k].retiredAt, compromisedAt := t.keys[k].compromisedAt)
          && (s.keys[k].retiredAt.Some? ==> t.keys[k].retiredAt == s.keys[k].retiredAt)
          && (s.keys[k].compromisedAt.Some? ==> t.keys[k].compromisedAt == s.keys[k].compromisedAt))
    && (t.enrolled.Some? ==> s.enrolled.Some? && t.enrolled.value.host == s.enrolled.value.host
                             && (s.enrolled.value.revokedAt.Some? ==> t.enrolled == s.enrolled))
  }

  lemma MarkedCurrent(s: State, t: State, k: string)
    requires Versioned(s.keys) && OnlyLastLive(s.keys) && Marks(s, t) && IsCurrent(t, k)
    ensures IsCurrent(s, k)
  {
    UnmarkedIsLast(s.keys, k);
  }

  lemma MarksInv(s: State, t: State)
    requires Inv(s) && Marks(s, t) && EnrollmentOk(t) && t.rotations == s.rotations
    ensures Inv(t)
  {
    assert |s.keys| == |s.keys.Keys| && |t.keys| == |t.keys.Keys|;
    forall v | 1 <= v <= |t.keys| ensures HasVersion(t.keys, v) {
      assert HasVersion(s.keys, v);
      var k :| k in s.keys && s.keys[k].version == v;
      assert t.keys[k].version == v;
    }
    forall r | r in t.rotations && IsCurrent(t, t.rotations[r].oldKey) ensures IsCurrent(s, t.rotations[r].oldKey) {
      MarkedCurrent(s, t, t.rotations[r].oldKey);
    }
  }

  lemma StepInv(s: State, op: Op)
    requires Inv(s)
    ensures Inv(Step(s, op))
  {
    hide Versioned, OnlyLastLive;
    match op
    case Enroll(now, host, key, allowed) => EnrollInv(s, op);
    case Challenge(now, nonce, expiresAt) => SameKeys(s, Step(s, op));
    case Rotate(now, request, digest, oldKey, newKey, nonce, proven) => RotateInv(s, op);
    case Approve(now, request) => if ApprovalDue(s, now, request) { ApproveInv(s, now, request); }
    case Compromise(now, actor, request, digest, key) =>
      if Step(s, op) != s { MarksInv(s, Step(s, op)); }
    case Revoke(now, actor, request, digest) =>
      if Step(s, op) != s { MarksInv(s, Step(s, op)); }
  }

  lemma EnrollInv(s: State, op: Op)
    requires Inv(s) && op.Enroll?
    ensures Inv(Step(s, op))
  {
    if Step(s, op) != s && op.firstKey.Some? {
      CardinalityAdd(s.keys, op.firstKey.value, Key(1, op.host, op.now, None, None));
      assert Step(s, op).keys[op.firstKey.value].version == 1;
    }
  }

  lemma SameKeys(s: State, t: State)
    requires Inv(s) && t.keys == s.keys && t.enrolled == s.enrolled && t.rotations == s.rotations
    ensures Inv(t)
  {
    hide Versioned, OnlyLastLive;
    forall k ensures IsCurrent(t, k) <==> IsCurrent(s, k) { SameCurrent(s, t, k); }
  }

  lemma SameCurrent(s: State, t: State, k: string)
    requires t.keys == s.keys && t.enrolled == s.enrolled
    ensures IsCurrent(t, k) <==> IsCurrent(s, k)
  {
    forall j ensures Usable(t, j) <==> Usable(s, j) {}
  }

  lemma RotateInv(s: State, op: Op)
    requires Inv(s) && op.Rotate?
    ensures Inv(Step(s, op))
  {
    hide Versioned, OnlyLastLive;
    var t := Step(s, op);
    forall k ensures IsCurrent(t, k) <==> IsCurrent(s, k) { SameCurrent(s, t, k); }
  }

  // For every run of enroll, rotate, approve, compromise and revoke: versions are exactly 1..n, all below
  // n are retired, at most one key is active and it is version n, and pending rotations stay fresh.
  lemma {:induction false} RunInv(ops: seq<Op>)
    ensures Inv(Run(EMPTY, ops))
  {
    if ops != [] {
      RunInv(ops[..|ops| - 1]);
      StepInv(Run(EMPTY, ops[..|ops| - 1]), ops[|ops| - 1]);
    }
  }

  // ---- status never moves back ----

  // key_status, as a rank: active, retired, compromised.
  function Rank(k: Key): nat { if k.compromisedAt.Some? then 2 else if k.retiredAt.Some? then 1 else 0 }

  // The same key, with no mark taken back.
  predicate KeyLater(a: Key, b: Key) {
    && Rank(a) <= Rank(b) && b.version == a.version && b.host == a.host && b.validFrom == a.validFrom
    && (a.retiredAt.Some? ==> b.retiredAt == a.retiredAt)
    && (a.compromisedAt.Some? ==> b.compromisedAt == a.compromisedAt)
  }

  ghost predicate Later(s: State, t: State) {
    && (forall k :: k in s.keys ==> k in t.keys && KeyLater(s.keys[k], t.keys[k]))
    && (s.enrolled.Some? ==> t.enrolled.Some? && t.enrolled.value.host == s.enrolled.value.host)
    && (s.enrolled.Some? && s.enrolled.value.revokedAt.Some? ==> t.enrolled == s.enrolled)
  }

  // Along every run no key is lost or renamed, and no status moves back.
  lemma {:induction false} StatusNeverMovesBack(s: State, ops: seq<Op>)
    requires Inv(s)
    ensures Later(s, Run(s, ops)) && Inv(Run(s, ops))
  {
    if ops != [] {
      var mid := Run(s, ops[..|ops| - 1]);
      StatusNeverMovesBack(s, ops[..|ops| - 1]);
      StepInv(mid, ops[|ops| - 1]);
      StepLater(mid, ops[|ops| - 1]);
      LaterTrans(s, mid, Run(s, ops));
    }
  }

  lemma StepLater(s: State, op: Op)
    requires Inv(s)
    ensures Later(s, Step(s, op))
  {
    hide Inv, IsCurrent, Step, Later;
    match op
    case Approve(now, request) => ApproveLater(s, now, request);
    case Rotate(_, _, _, _, _, _, _) => RequestLater(s, op);
    case Challenge(_, _, _) => RequestLater(s, op);
    case Enroll(_, _, _, _) => EnrollLater(s, op);
    case Compromise(_, _, _, _, _) => CompromiseLater(s, op);
    case Revoke(_, _, _, _) => RevokeLater(s, op);
  }

  lemma RequestLater(s: State, op: Op)
    requires op.Rotate? || op.Challenge?
    ensures Later(s, Step(s, op))
  {
    hide RotationAdmitted;
  }

  lemma EnrollLater(s: State, op: Op)
    requires op.Enroll?
    ensures Later(s, Step(s, op))
  {
  }

  lemma CompromiseLater(s: State, op: Op)
    requires op.Compromise?
    ensures Later(s, Step(s, op))
  {
    hide KeyLater;
    var t := Step(s, op);
    forall k | k in s.keys ensures KeyLater(s.keys[k], t.keys[k]) { MarkedLater(s.keys[k], op.now); }
  }

  lemma MarkedLater(a: Key, now: int)
    ensures KeyLater(a, a) && (a.compromisedAt.None? ==> KeyLater(a, a.(compromisedAt := Some(now))))
  {
  }

  lemma RevokeLater(s: State, op: Op)
    requires op.Revoke?
    ensures Later(s, Step(s, op))
  {
    hide Collides, RotationAdmitted, ApprovalDue;
  }

  lemma ApproveLater(s: State, now: int, request: string)
    requires Inv(s)
    ensures Later(s, Step(s, Approve(now, request)))
  {
    hide Inv, IsCurrent, Step;
    ApproveRefused(s, now, request);
    if ApprovalDue(s, now, request) {
      ApproveIs(s, now, request);
      OldKeyUnmarked(s, now, request);
    }
  }

  lemma OldKeyUnmarked(s: State, now: int, request: string)
    requires Inv(s) && ApprovalDue(s, now, request)
    ensures var r := s.rotations[request]; r.oldKey in s.keys && Unmarked(s.keys[r.oldKey]) && r.newKey !in s.keys
  {
  }

  lemma LaterTrans(s: State, t: State, u: State)
    requires Later(s, t) && Later(t, u)
    ensures Later(s, u)
  {
  }

  // ---- one rotation per nonce ----

  // The step stores a new rotation request.
  ghost predicate Admits(s: State, op: Op) {
    op.Rotate? && RotationAdmitted(s, op.now, op.request, op.oldKey, op.newKey, op.nonce, op.proven)
  }

  predicate Spent(s: State, nonce: string) { nonce in s.nonces && s.nonces[nonce].consumed }

  lemma StepSpent(s: State, op: Op, nonce: string)
    ensures Spent(s, nonce) ==> Spent(Step(s, op), nonce)
    ensures Admits(s, op) ==> Spent(Step(s, op), op.nonce) && !Spent(s, op.nonce)
  {
    hide IsCurrent, Collides;
  }

  lemma {:induction false} SpentStays(s: State, ops: seq<Op>, i: nat, nonce: string)
    requires i <= |ops| && Spent(Run(s, ops[..i]), nonce)
    ensures Spent(Run(s, ops), nonce)
    decreases |ops| - i
  {
    hide Step, Spent;
    if i == |ops| {
      assert ops[..i] == ops;
    } else {
      assert ops[..i + 1][..i] == ops[..i];
      StepSpent(Run(s, ops[..i]), ops[i], nonce);
      SpentStays(s, ops, i + 1, nonce);
    }
  }

  // In every run, no two stored rotation requests were proven with the same nonce, retries and reissues included.
  lemma OneRotationPerNonce(s: State, ops: seq<Op>, i: nat, j: nat)
    requires i < j < |ops| && ops[i].Rotate? && ops[j].Rotate?
    requires Admits(Run(s, ops[..i]), ops[i]) && Admits(Run(s, ops[..j]), ops[j])
    ensures ops[i].nonce != ops[j].nonce
  {
    hide Step, Admits, Spent;
    StepSpent(Run(s, ops[..i]), ops[i], ops[i].nonce);
    assert ops[..i + 1][..i] == ops[..i];
    assert ops[..j][..i + 1] == ops[..i + 1];
    SpentStays(s, ops[..j], i + 1, ops[i].nonce);
    StepSpent(Run(s, ops[..j]), ops[j], ops[j].nonce);
  }

  // ---- what a key may sign for ----

  // verify_manifest: None when the signature may be relied on.
  datatype Denial = NotEnrolled | Untrusted | KeyRetired | BadSignature

  function Verify(s: State, key: string, host: string, admitted: Option<int>, signed: bool): Option<Denial> {
    if key !in s.keys || s.enrolled.None? || s.enrolled.value.host != s.keys[key].host || s.keys[key].host != host then Some(NotEnrolled)
    else if s.enrolled.value.revokedAt.Some? || s.keys[key].compromisedAt.Some? then Some(Untrusted)
    else if s.keys[key].retiredAt.Some? && (admitted.None? || admitted.value > s.keys[key].retiredAt.value) then Some(KeyRetired)
    else if !signed then Some(BadSignature)
    else None
  }

  // ---- what the operations bring about ----

  // The first decision on a known key of an enrolled agent marks that key, and no other.
  lemma CompromiseMarks(s: State, op: Op)
    requires op.Compromise? && (op.actor, op.request) !in s.decisions && s.enrolled.Some? && op.key in s.keys
    ensures var t := Step(s, op);
      && t.keys.Keys == s.keys.Keys && t.enrolled == s.enrolled && t.keys[op.key].compromisedAt.Some?
      && t.keys[op.key] == s.keys[op.key].(compromisedAt := t.keys[op.key].compromisedAt)
      && forall k :: k in s.keys && k != op.key ==> t.keys[k] == s.keys[k]
  {
  }

  // A decision that was taken is never taken again or overwritten, by whatever later request.
  lemma DecisionOnce(s: State, op: Op)
    requires (op.Compromise? || op.Revoke?) && (op.actor, op.request) in s.decisions
    ensures Step(s, op) == s
  {
  }

  lemma {:induction false} DecisionsKept(s: State, ops: seq<Op>, d: (string, string))
    requires d in s.decisions
    ensures d in Run(s, ops).decisions && Run(s, ops).decisions[d] == s.decisions[d]
  {
    hide Collides, IsCurrent, RotationAdmitted, ApprovalDue;
    if ops != [] { DecisionsKept(s, ops[..|ops| - 1], d); }
  }

  // From then on, whatever happens, the key is denied for every host, admission time and signature.
  lemma CompromiseLocksOut(s: State, op: Op, ops: seq<Op>, host: string, admitted: Option<int>, signed: bool)
    requires Inv(s) && op.Compromise? && (op.actor, op.request) !in s.decisions && s.enrolled.Some? && op.key in s.keys
    ensures Verify(Run(Step(s, op), ops), op.key, host, admitted, signed).Some?
  {
    hide Inv, Step, Run;
    CompromiseMarks(s, op);
    StepInv(s, op);
    StatusNeverMovesBack(Step(s, op), ops);
    assert KeyLater(Step(s, op).keys[op.key], Run(Step(s, op), ops).keys[op.key]);
  }

  // The first revocation retires every key that was not, and denies all keys of the agent from then on.
  lemma RevokeLocksOut(s: State, op: Op, ops: seq<Op>, key: string, host: string, admitted: Option<int>, signed: bool)
    requires Inv(s) && op.Revoke? && (op.actor, op.request) !in s.decisions && s.enrolled.Some?
    ensures forall k :: k in s.keys ==> k in Step(s, op).keys && Step(s, op).keys[k].retiredAt.Some?
    ensures Verify(Run(Step(s, op), ops), key, host, admitted, signed).Some?
  {
    RevokeMarks(s, op);
    hide Inv, Step, Run;
    StepInv(s, op);
    StatusNeverMovesBack(Step(s, op), ops);
  }

  lemma RevokeMarks(s: State, op: Op)
    requires EnrollmentOk(s) && op.Revoke? && (op.actor, op.request) !in s.decisions && s.enrolled.Some?
    ensures var t := Step(s, op);
      && t.enrolled.Some? && t.enrolled.value.revokedAt.Some? && t.keys.Keys == s.keys.Keys
      && forall k :: k in s.keys ==> t.keys[k].retiredAt.Some? && KeyLater(s.keys[k], t.keys[k])
  {
  }

  // An agent is enrolled exactly when that is allowed and it is not enrolled yet; its first key, if any, is version 1.
  lemma EnrollExactly(s: State, op: Op)
    requires Inv(s) && op.Enroll?
    ensures var t := Step(s, op);
      if s.enrolled.None? && op.allowed then
        && t.enrolled == Some(Enrollment(op.host, None))
        && t.keys == if op.firstKey.None? then map[] else map[op.firstKey.value := Key(1, op.host, op.now, None, None)]
      else t == s
  {
    hide Versioned, OnlyLastLive, RotationsFresh;
  }

  // An enrolled first key is current and may sign.
  lemma EnrollmentSigns(now: int, host: string, key: string)
    ensures var t := Step(EMPTY, Enroll(now, host, Some(key), true));
      IsCurrent(t, key) && Verify(t, key, host, None, true) == None && Verify(t, key, host, None, false) == Some(BadSignature)
  {
  }

  // A rotation request is stored exactly when it is new, proven, names the current key and a key never seen, and
  // its nonce is issued, unused and unexpired.
  lemma RotationStoredExactly(s: State, op: Op)
    requires op.Rotate? && op.request !in s.rotations
    ensures op.request in Step(s, op).rotations <==>
      && op.proven && IsCurrent(s, op.oldKey) && op.newKey !in s.keys
      && op.nonce in s.nonces && !s.nonces[op.nonce].consumed && op.now < s.nonces[op.nonce].expiresAt
    ensures op.request !in Step(s, op).rotations ==> Step(s, op) == s
  {
    hide IsCurrent;
  }

  // A nonce that was issued is never reissued or renewed.
  lemma NonceIssuedOnce(s: State, op: Op)
    requires op.Challenge?
    ensures op.nonce in s.nonces ==> Step(s, op) == s
    ensures op.nonce !in s.nonces ==> Step(s, op) == s.(nonces := s.nonces[op.nonce := Nonce(op.expiresAt, false)])
  {
  }

  // A stored request can be approved exactly until its nonce expires.
  lemma RequestApprovable(s: State, op: Op, now: int)
    requires Inv(s) && Admits(s, op)
    ensures var t := Step(s, op);
      && op.request in t.rotations && t.rotations[op.request].oldKey == op.oldKey && t.rotations[op.request].newKey == op.newKey
      && (ApprovalDue(t, now, op.request) <==> now < s.nonces[op.nonce].expiresAt)
  {
    hide Inv;
    SameCurrent(s, Step(s, op), op.oldKey);
  }

  // Approval hands over: the new key is current and signs new work; the old one signs exactly for what was admitted
  // until now.
  lemma ApprovalHandsOver(s: State, now: int, request: string, admitted: Option<int>)
    requires Inv(s) && ApprovalDue(s, now, request)
    ensures var r := s.rotations[request]; var t := Step(s, Approve(now, request)); var host := s.enrolled.value.host;
      && t.rotations[request].approved && IsCurrent(t, r.newKey) && Verify(t, r.newKey, host, admitted, true) == None
      && (Verify(t, r.oldKey, host, admitted, true) == None <==> admitted.Some? && admitted.value <= now)
  {
    ApproveIs(s, now, request);
    UnmarkedIsLast(s.keys, s.rotations[request].oldKey);
    hide Step;
    HandedOver(s, now, request);
  }

  lemma HandedOver(s: State, now: int, request: string)
    requires Inv(s) && ApprovalDue(s, now, request)
    ensures var r := s.rotations[request]; IsCurrent(s.(keys := WithSuccessor(s.keys, r.oldKey, now, r.newKey)), r.newKey)
  {
    UnmarkedIsLast(s.keys, s.rotations[request].oldKey);
  }

  lemma ApproveRefused(s: State, now: int, request: string)
    ensures !ApprovalDue(s, now, request) ==> Step(s, Approve(now, request)) == s
  {
  }

  // ---- the tables in place ----

  class Registry {
    var enrolled: Option<Enrollment>
    var keys: map<string, Key>
    var rotations: map<string, Rotation>
    var nonces: map<string, Nonce>
    var decisions: map<(string, string), string>

    function Tables(): State
      reads this
    {
      State(enrolled, keys, rotations, nonces, decisions)
    }

    ghost predicate Valid()
      reads this
    {
      Inv(Tables())
    }

    constructor ()
      ensures Valid() && Tables() == EMPTY
    {
      enrolled, keys, rotations, nonces, decisions := None, map[], map[], map[], map[];
    }

    // current(): ORDER BY key_version DESC LIMIT 1
    method Current() returns (id: Option<string>)
      ensures id.Some? ==> IsCurrent(Tables(), id.value)
      ensures id.None? ==> forall k :: k in keys ==> !IsCurrent(Tables(), k)
      ensures Valid() ==> forall k :: IsCurrent(Tables(), k) ==> id == Some(k)
    {
      id := None;
      var s := Tables();
      var rest := keys.Keys;
      while rest != {}
        invariant rest <= keys.Keys
        invariant id.Some? ==> Usable(s, id.value) && id.value !in rest
        invariant forall k :: k in keys && k !in rest && Usable(s, k) ==>
          id.Some? && keys[k].version <= keys[id.value].version
        decreases |rest|
      {
        var k :| k in rest;
        if Usable(s, k) && (id.None? || keys[id.value].version < keys[k].version) { id := Some(k); }
        rest := rest - {k};
      }
      if Inv(s) {
        forall k | IsCurrent(s, k) ensures id == Some(k) {
          if id.Some? { UnmarkedIsLast(keys, k); }
        }
      }
    }

    // request_rotation; a retry of the same request is a replay.
    method RequestRotation(now: int, request: string, digest: string, oldKey: string, newKey: string, nonce: string, proven: bool)
      returns (ok: bool)
      requires Valid()
      modifies `rotations, `nonces
      ensures Valid() && Tables() == Step(old(Tables()), Rotate(now, request, digest, oldKey, newKey, nonce, proven))
      ensures ok <==> request in rotations && rotations[request].digest == digest
                      && (request in old(rotations) || RotationAdmitted(old(Tables()), now, request, oldKey, newKey, nonce, proven))
    {
      StepInv(Tables(), Rotate(now, request, digest, oldKey, newKey, nonce, proven));
      if request in rotations { return rotations[request].digest == digest; }
      var prior := Current();
      if prior != Some(oldKey) { return false; }
      if newKey in keys { return false; }
      if nonce !in nonces || nonces[nonce].consumed || nonces[nonce].expiresAt <= now { return false; }
      if !proven { return false; }
      rotations := rotations[request := Rotation(oldKey, newKey, digest, false, nonces[nonce].expiresAt)];
      nonces := nonces[nonce := nonces[nonce].(consumed := true)];
      ok := true;
    }

    // approve_rotation
    method ApproveRotation(now: int, request: string) returns (ok: bool)
      requires Valid()
      modifies `keys, `rotations
      ensures Valid() && Tables() == Step(old(Tables()), Approve(now, request))
      ensures ok <==> request in rotations && rotations[request].approved
    {
      hide Inv, Step, IsCurrent, Collides;
      ghost var s := Tables();
      StepInv(s, Approve(now, request));
      ApproveRefused(s, now, request);
      if request !in rotations { return false; }
      var r := rotations[request];
      if r.approved { return true; }
      if r.expiresAt <= now { return false; }
      var prior := Current();
      if prior != Some(r.oldKey) { return false; }
      ApproveIs(s, now, request);
      OldKeyUnmarked(s, now, request);
      var k := keys[r.oldKey];
      keys := keys[r.oldKey := Retired(k, now)];
      keys := keys[r.newKey := Key(k.version + 1, k.host, now, None, None)];
      rotations := rotations[request := r.(approved := true)];
      ok := true;
    }

    // The enrollment row, with the trigger that files its public key, if it carries one.
    method EnrollAgent(now: int, host: string, key: Option<string>, allowed: bool) returns (ok: bool)
      requires Valid()
      modifies `enrolled, `keys
      ensures Valid() && Tables() == Step(old(Tables()), Enroll(now, host, key, allowed))
      ensures ok <==> enrolled.Some? && old(enrolled).None?
    {
      hide Inv, IsCurrent;
      StepInv(Tables(), Enroll(now, host, key, allowed));
      if !allowed || enrolled.Some? { return false; }
      if key.Some? {
        if Collides(keys, key.value, 1) { return false; }
        keys := keys[key.value := Key(1, host, now, None, None)];
      }
      enrolled := Some(Enrollment(host, None));
      ok := true;
    }

    // A rotation challenge; a nonce is issued once.
    method IssueNonce(now: int, nonce: string, expiresAt: int)
      requires Valid()
      modifies `nonces
      ensures Valid() && Tables() == Step(old(Tables()), Challenge(now, nonce, expiresAt))
    {
      hide Inv;
      StepInv(Tables(), Challenge(now, nonce, expiresAt));
      if nonce !in nonces { nonces := nonces[nonce := Nonce(expiresAt, false)]; }
    }

    // _identity_operation: one key is compromised, or the enrollment is revoked.
    method Decide(now: int, actor: string, request: string, digest: string, key: Option<string>) returns (ok: bool)
      requires Valid()
      modifies `enrolled, `keys, `decisions
      ensures Valid()
      ensures Tables() == Step(old(Tables()),
        if key.Some? then Compromise(now, actor, request, digest, key.value) else Revoke(now, actor, request, digest))
      ensures ok <==> (actor, request) in decisions && decisions[(actor, request)] == digest
    {
      hide Inv, Step;
      if key.Some? {
        ok := CompromiseKey(now, actor, request, digest, key.value);
      } else {
        ok := RevokeEnrollment(now, actor, request, digest);
      }
    }

    method CompromiseKey(now: int, actor: string, request: string, digest: string, key: string) returns (ok: bool)
      requires Valid()
      modifies `enrolled, `keys, `decisions
      ensures Valid() && Tables() == Step(old(Tables()), Compromise(now, actor, request, digest, key))
      ensures ok <==> (actor, request) in decisions && decisions[(actor, request)] == digest
    {
      hide Inv, IsCurrent;
      StepInv(Tables(), Compromise(now, actor, request, digest, key));
      if (actor, request) in decisions { return decisions[(actor, request)] == digest; }
      if enrolled.None? || key !in keys { return false; }
      if keys[key].compromisedAt.None? {
        keys := keys[key := keys[key].(compromisedAt := Some(now))];
      }
      decisions := decisions[(actor, request) := digest];
      ok := true;
    }

    method RevokeEnrollment(now: int, actor: string, request: string, digest: string) returns (ok: bool)
      requires Valid()
      modifies `enrolled, `keys, `decisions
      ensures Valid() && Tables() == Step(old(Tables()), Revoke(now, actor, request, digest))
      ensures ok <==> (actor, request) in decisions && decisions[(actor, request)] == digest
    {
      hide Inv, IsCurrent;
      StepInv(Tables(), Revoke(now, actor, request, digest));
      if (actor, request) in decisions { return decisions[(actor, request)] == digest; }
      if enrolled.None? { return false; }
      if enrolled.value.revokedAt.None? {
        enrolled := Some(enrolled.value.(revokedAt := Some(now)));
        keys := map k | k in keys :: if keys[k].retiredAt.None? then Retired(keys[k], now) else keys[k];
      }
      decisions := decisions[(actor, request) := digest];
      ok := true;
    }
  }
}
