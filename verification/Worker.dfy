// The detection queue worker, manager/detection/worker.py. One thread claims a bounded batch over three queues,
// resolves every claimed row, and may be restarted at any point with its claims in hand.
module Worker {
  import opened Aggregates

  const CLAIM_LIMIT := 256
  const LEASE := 60

  datatype Queue = Legacy | Endpoint | Linux
  datatype Key = Key(queue: Queue, agent: string, id: string)
  datatype Detect = Pending | Claimed | Done | Failed
  // order is the row's place in its queue's ORDER BY.
  datatype Row = Row(order: int, state: Detect, claimedAt: Option<int>, attempts: nat)
  type Rows = map<Key, Row>

  // ---- sharing the batch between queues ----

  function Sum(s: seq<nat>): nat
    decreases |s|
  {
    if s == [] then 0 else Sum(s[..|s| - 1]) + s[|s| - 1]
  }

  lemma {:induction false} SumBump(s: seq<nat>, i: nat)
    requires i < |s|
    ensures Sum(s[i := s[i] + 1]) == Sum(s) + 1
    decreases |s|
  {
    var t := s[i := s[i] + 1];
    var n := |s| - 1;
    if i == n {
      assert t[..n] == s[..n];
    } else {
      SumBump(s[..n], i);
      assert t[..n] == s[..n][i := s[i] + 1];
    }
  }

  lemma {:induction false} SumMono(a: seq<nat>, b: seq<nat>)
    requires |a| == |b| && forall i :: 0 <= i < |a| ==> a[i] <= b[i]
    ensures Sum(a) <= Sum(b)
    ensures Sum(a) == Sum(b) ==> a == b
    decreases |a|
  {
    if a != [] {
      var n := |a| - 1;
      SumMono(a[..n], b[..n]);
      assert a == a[..n] + [a[n]] && b == b[..n] + [b[n]];
    }
  }

  // Round-robin shares: the first m queues have had r + 1 turns, the others r.
  ghost predicate Levelled(lens: seq<nat>, take: seq<nat>, r: nat, m: nat) {
    && |take| == |lens|
    && forall i :: 0 <= i < |lens| ==> take[i] == Min(lens[i], if i < m then r + 1 else r)
  }

  // Max-min fair: while a queue has rows left over, no queue got more than one row more than it.
  ghost predicate Fair(lens: seq<nat>, take: seq<nat>) {
    && |take| == |lens|
    && (forall i :: 0 <= i < |lens| ==> take[i] <= lens[i])
    && (forall i, j :: 0 <= i < |lens| && 0 <= j < |lens| && take[i] < lens[i] ==> take[j] <= take[i] + 1)
  }

  lemma LevelledFair(lens: seq<nat>, take: seq<nat>, r: nat, m: nat)
    requires Levelled(lens, take, r, m)
    ensures Fair(lens, take)
  {
  }

  // No other division of at most as many rows is better: a queue that gains does so from one that ends up
  // with fewer rows than the gainer.
  lemma FairIsMaxMin(lens: seq<nat>, take: seq<nat>, other: seq<nat>, i: nat)
    requires Fair(lens, take) && |other| == |lens| && forall j :: 0 <= j < |lens| ==> other[j] <= lens[j]
    requires Sum(other) <= Sum(take) && i < |lens| && other[i] > take[i]
    ensures exists j :: 0 <= j < |lens| && other[j] < take[j] && other[j] < other[i]
  {
    if forall j :: 0 <= j < |lens| ==> take[j] <= other[j] {
      SumMono(take, other);
      assert false;
    }
    var j :| 0 <= j < |lens| && other[j] < take[j];
    assert take[j] <= take[i] + 1;
  }

  // One turn of the round robin: the next queue of the round gets a row, or has none left.
  lemma TurnTaken(lens: seq<nat>, take: seq<nat>, r: nat, i: nat)
    requires Levelled(lens, take, r, i) && i < |lens|
    ensures take[i] <= lens[i]
    ensures take[i] < lens[i] ==> Levelled(lens, take[i := take[i] + 1], r, i + 1)
    ensures take[i] == lens[i] ==> Levelled(lens, take, r, i + 1)
  {
  }

  lemma RoundDone(lens: seq<nat>, take: seq<nat>, r: nat)
    requires Levelled(lens, take, r, |lens|)
    ensures Levelled(lens, take, r + 1, 0)
  {
  }

  lemma NothingTaken(lens: seq<nat>)
    ensures Levelled(lens, seq(|lens|, _ => 0), 0, 0) && Sum(seq(|lens|, _ => 0)) == 0
  {
    SumZero(seq(|lens|, _ => 0));
  }

  // The share loop of claim_batch.
  method Share(lens: seq<nat>) returns (take: seq<nat>)
    ensures Fair(lens, take)
    ensures Sum(take) == Min(CLAIM_LIMIT, Sum(lens))
    ensures exists r, m :: Levelled(lens, take, r, m)
  {
    hide Levelled, Fair, Sum;
    take := seq(|lens|, _ => 0);
    NothingTaken(lens);
    ghost var r, m := 0, 0;
    var remaining := CLAIM_LIMIT;
    while remaining > 0
      invariant 0 <= remaining <= CLAIM_LIMIT && |take| == |lens|
      invariant Levelled(lens, take, r, m) && (remaining > 0 ==> m == 0)
      invariant Sum(take) == CLAIM_LIMIT - remaining
      decreases remaining
    {
      var changed := false;
      var before := remaining;
      var i := 0;
      while i < |lens|
        invariant 0 <= i <= |lens| && 0 <= remaining <= before && |take| == |lens|
        invariant remaining > 0 ==> m == i
        invariant Levelled(lens, take, r, m)
        invariant Sum(take) == CLAIM_LIMIT - remaining
        invariant changed <==> remaining < before
        invariant !changed ==> forall j :: 0 <= j < i ==> take[j] == lens[j]
      {
        if remaining > 0 {
          TurnTaken(lens, take, r, i);
          if take[i] < lens[i] {
            SumBump(take, i);
            take := take[i := take[i] + 1];
            remaining := remaining - 1;
            changed := true;
          }
          m := i + 1;
        }
        i := i + 1;
      }
      if !changed {
        assert take == lens;
        break;
      }
      if remaining > 0 {
        RoundDone(lens, take, r);
        r, m := r + 1, 0;
      }
    }
    LevelledFair(lens, take, r, m);
    FairSum(lens, take);
  }

  lemma FairSum(lens: seq<nat>, take: seq<nat>)
    requires Fair(lens, take)
    ensures Sum(take) <= Sum(lens)
  {
    SumMono(take, lens);
  }

  lemma {:induction false} SumZero(s: seq<nat>)
    requires forall i :: 0 <= i < |s| ==> s[i] == 0
    ensures Sum(s) == 0
    decreases |s|
  {
    if s != [] { SumZero(s[..|s| - 1]); }
  }

  // Round-robin and the number of rows handed out leave no choice.
  lemma SharesUnique(lens: seq<nat>, a: seq<nat>, b: seq<nat>, r: nat, m: nat, r': nat, m': nat)
    requires Levelled(lens, a, r, m) && Levelled(lens, b, r', m') && m <= |lens| && m' <= |lens|
    requires Sum(a) == Sum(b)
    ensures a == b
  {
    if r < r' || (r == r' && m <= m') { SumMono(a, b); } else { SumMono(b, a); }
  }

  // ---- the worker over its tables ----

  // hand holds the claimed rows not yet resolved, in processing order; it does not survive the process.
  datatype State = State(rows: Rows, hand: seq<Key>)

  datatype Op =
    | Ingest(key: Key, order: int)
    | Claim(now: int, keys: seq<Key>)
    | Resolve(ok: bool)
    | Restart(now: int)

  predicate Waiting(rows: Rows, k: Key) { k in rows && rows[k].state == Pending }
  function AllWaiting(rows: Rows): set<Key> { set k | k in rows && Waiting(rows, k) }
  function WaitingIn(rows: Rows, q: Queue): set<Key> { set k | k in rows && Waiting(rows, k) && k.queue == q }
  function ClaimedIn(keys: seq<Key>, q: Queue): set<Key> { set k | k in keys && k.queue == q }

  function Rank(q: Queue): nat { match q case Legacy => 0 case Endpoint => 1 case Linux => 2 }

  ghost predicate Distinct(keys: seq<Key>) { forall i, j :: 0 <= i < j < |keys| ==> keys[i] != keys[j] }

  // What claim_batch takes: as many waiting rows as there are up to the limit, a prefix of every queue in its
  // order, fairly shared, and handed out queue by queue.
  ghost predicate Claims(rows: Rows, keys: seq<Key>) {
    && Distinct(keys) && (forall k :: k in keys ==> Waiting(rows, k))
    && |keys| == Min(CLAIM_LIMIT, |AllWaiting(rows)|)
    && (forall k, j :: k in keys && Waiting(rows, j) && j.queue == k.queue && rows[j].order < rows[k].order ==> j in keys)
    && (forall j, q :: Waiting(rows, j) && j !in keys ==> |ClaimedIn(keys, q)| <= |ClaimedIn(keys, j.queue)| + 1)
    && (forall i, j :: 0 <= i < j < |keys| ==>
          || Rank(keys[i].queue) < Rank(keys[j].queue)
          || (keys[i].queue == keys[j].queue && rows[keys[i]].order <= rows[keys[j]].order))
  }

  function TakenAt(now: int): Row -> Row { (r: Row) => r.(state := Claimed, claimedAt := Some(now)) }

  // Legacy rows keep their claim time.
  function Resolved(q: Queue, r: Row, ok: bool): Row {
    var kept := if q == Legacy then r.claimedAt else None;
    if ok then r.(state := Done, claimedAt := kept) else r.(state := Failed, claimedAt := kept, attempts := r.attempts + 1)
  }

  predicate Expired(r: Row, now: int) {
    r.state == Claimed && (r.claimedAt.None? || r.claimedAt.value < now - LEASE)
  }

  function Reverted(rows: Rows, now: int): Rows {
    map k | k in rows :: if Expired(rows[k], now) then rows[k].(state := Pending, claimedAt := None) else rows[k]
  }

  ghost function Step(s: State, op: Op): State {
    match op
    case Ingest(k, order) => if k in s.rows then s else s.(rows := s.rows[k := Row(order, Pending, None, 0)])
    case Claim(now, keys) =>
      if s.hand == [] && Claims(s.rows, keys)
      then State(Updated(s.rows, (set k | k in keys), TakenAt(now)), keys) else s
    case Resolve(ok) =>
      if s.hand == [] || s.hand[0] !in s.rows then s
      else State(s.rows[s.hand[0] := Resolved(s.hand[0].queue, s.rows[s.hand[0]], ok)], s.hand[1..])
    case Restart(now) => State(Reverted(s.rows, now), [])
  }

  ghost function Run(s: State, ops: seq<Op>): State
    decreases |ops|
  {
    if ops == [] then s else Step(Run(s, ops[..|ops| - 1]), ops[|ops| - 1])
  }

  const EMPTY := State(map[], [])

  predicate Final(r: Row) { r.state == Done || r.state == Failed }

  // The rows in hand are claimed, and a row has one failed attempt exactly when it failed.
  ghost predicate Inv(s: State) {
    && Distinct(s.hand)
    && (forall k :: k in s.hand ==> k in s.rows && s.rows[k].state == Claimed)
    && (forall k :: k in s.rows ==> s.rows[k].attempts == if s.rows[k].state == Failed then 1 else 0)
  }

  lemma StepInv(s: State, op: Op)
    requires Inv(s)
    ensures Inv(Step(s, op))
    ensures forall k :: k in s.rows ==> k in Step(s, op).rows
    ensures forall k :: k in s.rows && Final(s.rows[k]) ==> Step(s, op).rows[k] == s.rows[k]
    ensures !op.Restart? ==> forall k :: k in s.rows && s.rows[k].state == Claimed && k !in s.hand ==>
      Step(s, op).rows[k] == s.rows[k] && k !in Step(s, op).hand
  {
  }

  lemma {:induction false} RunInv(s: State, ops: seq<Op>)
    requires Inv(s)
    ensures Inv(Run(s, ops))
    decreases |ops|
  {
    hide Step, Inv;
    if ops != [] {
      RunInv(s, ops[..|ops| - 1]);
      StepInv(Run(s, ops[..|ops| - 1]), ops[|ops| - 1]);
    }
  }

  // Whatever the worker does, a done or failed row never changes and no row is lost.
  lemma {:induction false} FinalStays(s: State, ops: seq<Op>, k: Key)
    requires Inv(s) && k in s.rows
    ensures k in Run(s, ops).rows && (Final(s.rows[k]) ==> Run(s, ops).rows[k] == s.rows[k])
    decreases |ops|
  {
    hide Step, Inv;
    if ops != [] {
      FinalStays(s, ops[..|ops| - 1], k);
      RunInv(s, ops[..|ops| - 1]);
      StepInv(Run(s, ops[..|ops| - 1]), ops[|ops| - 1]);
    }
  }

  // ---- one cycle ----

  function Resolves(oks: seq<bool>): seq<Op> { seq(|oks|, i requires 0 <= i < |oks| => Resolve(oks[i])) }

  // All rows after the claimed ones got their verdicts.
  ghost predicate CycleDone(rows: Rows, after: Rows, keys: seq<Key>, now: int, oks: seq<bool>) {
    && |oks| == |keys| && after.Keys == rows.Keys && (forall k :: k in keys ==> k in rows)
    && (forall i :: 0 <= i < |keys| ==> after[keys[i]] == Resolved(keys[i].queue, TakenAt(now)(rows[keys[i]]), oks[i]))
    && (forall k :: k in rows && k !in keys ==> after[k] == rows[k])
  }

  lemma {:induction false} RunSplit(s: State, a: seq<Op>, b: seq<Op>)
    ensures Run(s, a + b) == Run(Run(s, a), b)
    decreases |b|
  {
    hide Step;
    if b == [] {
      assert a + b == a;
    } else {
      RunSplit(s, a, b[..|b| - 1]);
      assert (a + b)[..|a + b| - 1] == a + b[..|b| - 1];
    }
  }

  // The first rows in hand have their verdicts.
  ghost predicate PartDone(s: State, t: State, oks: seq<bool>) {
    && |oks| <= |s.hand| && t.hand == s.hand[|oks|..] && t.rows.Keys == s.rows.Keys
    && (forall k :: k in s.hand ==> k in s.rows)
    && (forall i :: 0 <= i < |oks| ==> t.rows[s.hand[i]] == Resolved(s.hand[i].queue, s.rows[s.hand[i]], oks[i]))
    && (forall k :: k in s.rows && k !in s.hand[..|oks|] ==> t.rows[k] == s.rows[k])
  }

  lemma PartNext(s: State, mid: State, oks: seq<bool>, ok: bool)
    requires Distinct(s.hand) && |oks| < |s.hand| && PartDone(s, mid, oks)
    ensures var k := mid.hand[0]; k in mid.rows && PartDone(s, State(mid.rows[k := Resolved(k.queue, mid.rows[k], ok)], mid.hand[1..]), oks + [ok])
  {
    var n, k := |oks|, s.hand[|oks|];
    assert mid.hand[0] == k && k !in s.hand[..n];
    assert s.hand[..n + 1] == s.hand[..n] + [k];
    assert s.hand[n..][1..] == s.hand[n + 1..];
  }

  lemma {:induction false} ResolveSome(s: State, oks: seq<bool>)
    requires Inv(s) && |oks| <= |s.hand|
    ensures PartDone(s, Run(s, Resolves(oks)), oks)
    decreases |oks|
  {
    hide Step, Resolved;
    if oks == [] {
      assert s.hand[0..] == s.hand;
    } else {
      hide PartDone;
      var n := |oks| - 1;
      ResolveSome(s, oks[..n]);
      var mid := Run(s, Resolves(oks[..n]));
      assert Resolves(oks)[..n] == Resolves(oks[..n]) && Resolves(oks)[n] == Resolve(oks[n]);
      HandLeft(s, mid, oks[..n]);
      PartNext(s, mid, oks[..n], oks[n]);
      assert oks[..n] + [oks[n]] == oks;
      ResolveNext(mid, oks[n]);
    }
  }

  lemma HandLeft(s: State, mid: State, oks: seq<bool>)
    requires PartDone(s, mid, oks)
    ensures |mid.hand| == |s.hand| - |oks|
  {
  }

  lemma ResolveNext(s: State, ok: bool)
    requires s.hand != [] && s.hand[0] in s.rows
    ensures Step(s, Resolve(ok)) == State(s.rows[s.hand[0] := Resolved(s.hand[0].queue, s.rows[s.hand[0]], ok)], s.hand[1..])
  {
  }

  // An uninterrupted cycle leaves every claimed row done or failed by its own verdict, and touches no other row.
  lemma CycleResolves(s: State, now: int, keys: seq<Key>, oks: seq<bool>)
    requires Inv(s) && s.hand == [] && Claims(s.rows, keys) && |oks| == |keys|
    ensures var t := Run(s, [Claim(now, keys)] + Resolves(oks));
      && t.hand == [] && CycleDone(s.rows, t.rows, keys, now, oks)
      && forall i :: 0 <= i < |keys| ==> t.rows[keys[i]].state == if oks[i] then Done else Failed
  {
    var c := Claim(now, keys);
    assert [c][..0] == [];
    assert Run(s, [c]) == Step(s, c);
    RunSplit(s, [c], Resolves(oks));
    StepInv(s, c);
    ResolveSome(Step(s, c), oks);
    assert keys[..|oks|] == keys;
  }

  // ---- draining the queues ----

  // States after full cycles in a row, with nothing ingested between them.
  ghost predicate Cycles(states: seq<Rows>) {
    forall i :: 0 <= i < |states| - 1 ==> CycleStep(states[i], states[i + 1])
  }

  ghost predicate CycleStep(rows: Rows, after: Rows) {
    exists keys, now, oks :: Claims(rows, keys) && CycleDone(rows, after, keys, now, oks)
  }

  lemma CycleCounts(rows: Rows, after: Rows)
    requires CycleStep(rows, after)
    ensures after.Keys == rows.Keys
    ensures |AllWaiting(after)| == |AllWaiting(rows)| - Min(CLAIM_LIMIT, |AllWaiting(rows)|)
    ensures forall k :: k in rows ==> (after[k].state == Claimed <==> rows[k].state == Claimed)
  {
    hide CycleDone, Claims, AllWaiting;
    var keys: seq<Key>, now: int, oks: seq<bool> :| Claims(rows, keys) && CycleDone(rows, after, keys, now, oks);
    ClaimsSize(rows, keys);
    CycleMoves(rows, after, keys, now, oks);
    SubtractSize(AllWaiting(rows), set k | k in keys);
  }

  lemma ClaimsSize(rows: Rows, keys: seq<Key>)
    requires Claims(rows, keys)
    ensures (set k | k in keys) <= AllWaiting(rows)
    ensures |set k | k in keys| == Min(CLAIM_LIMIT, |AllWaiting(rows)|)
    ensures forall k :: k in keys ==> Waiting(rows, k)
  {
    DistinctSize(keys, set k | k in keys);
  }

  lemma CycleMoves(rows: Rows, after: Rows, keys: seq<Key>, now: int, oks: seq<bool>)
    requires CycleDone(rows, after, keys, now, oks) && forall k :: k in keys ==> Waiting(rows, k)
    ensures AllWaiting(after) == AllWaiting(rows) - (set k | k in keys)
    ensures after.Keys == rows.Keys && forall k :: k in rows ==> (after[k].state == Claimed <==> rows[k].state == Claimed)
  {
    forall k | k in keys ensures Final(after[k]) {
      var i :| 0 <= i < |keys| && keys[i] == k;
      assert Final(Resolved(k.queue, TakenAt(now)(rows[k]), oks[i]));
    }
  }

  // n full cycles take exactly 256 waiting rows each until none is left, and never touch a claim they did not make.
  lemma {:induction false} DrainExactly(states: seq<Rows>)
    requires states != [] && Cycles(states)
    ensures var first, last, n := states[0], states[|states| - 1], |states| - 1;
      && last.Keys == first.Keys
      && |AllWaiting(last)| == |AllWaiting(first)| - Min(CLAIM_LIMIT * n, |AllWaiting(first)|)
      && forall k :: k in first ==> (last[k].state == Claimed <==> first[k].state == Claimed)
    decreases |states|
  {
    hide CycleStep, AllWaiting;
    var n := |states| - 1;
    if n > 0 {
      var prefix := states[..n];
      assert forall i :: 0 <= i < n - 1 ==> CycleStep(prefix[i], prefix[i + 1]) by {
        forall i | 0 <= i < n - 1 ensures CycleStep(prefix[i], prefix[i + 1]) {
          assert CycleStep(states[i], states[i + 1]);
        }
      }
      DrainExactly(prefix);
      assert CycleStep(states[n - 1], states[n - 1 + 1]);
      CycleCounts(states[n - 1], states[n]);
    }
  }

  // Crash recovery, exactly: after a restart at `now` and cycles enough for every row, all rows are done or
  // failed if and only if no claim was younger than the lease at the restart.
  lemma RecoveryExactly(s: State, now: int, states: seq<Rows>)
    requires states != [] && Cycles(states) && states[0] == Step(s, Restart(now)).rows
    requires CLAIM_LIMIT * (|states| - 1) >= |s.rows.Keys|
    ensures (forall k :: k in s.rows ==> k in states[|states| - 1] && Final(states[|states| - 1][k]))
            <==> (forall k :: k in s.rows && s.rows[k].state == Claimed ==> s.rows[k].claimedAt.None? || s.rows[k].claimedAt.value < now - LEASE)
  {
    hide Cycles, AllWaiting, Final;
    var first, last := states[0], states[|states| - 1];
    DrainExactly(states);
    assert first.Keys == s.rows.Keys;
    WaitingAreRows(first);
    SubtractSize(first.Keys, AllWaiting(first));
    SameSizeSubset({}, AllWaiting(last));
    forall k | k in s.rows
      ensures Final(last[k]) <==> (s.rows[k].state == Claimed ==> Expired(s.rows[k], now))
    {
      RecoveredRow(s, now, first, last, k);
    }
  }

  lemma RecoveredRow(s: State, now: int, first: Rows, last: Rows, k: Key)
    requires first == Step(s, Restart(now)).rows && last.Keys == first.Keys && AllWaiting(last) == {} && k in s.rows
    requires last[k].state == Claimed <==> first[k].state == Claimed
    ensures Final(last[k]) <==> (s.rows[k].state == Claimed ==> Expired(s.rows[k], now))
  {
    assert k !in AllWaiting(last);
  }

  // A claim that outlives its process by less than the lease is stuck until another restart.
  lemma {:induction false} YoungClaimStuck(s: State, now: int, k: Key, ops: seq<Op>)
    requires Inv(s) && k in s.rows && s.rows[k].state == Claimed && !Expired(s.rows[k], now)
    requires forall i :: 0 <= i < |ops| ==> !ops[i].Restart?
    ensures var t := Run(Step(s, Restart(now)), ops); k in t.rows && t.rows[k] == s.rows[k] && k !in t.hand && Inv(t)
    decreases |ops|
  {
    var s0 := Step(s, Restart(now));
    StepInv(s, Restart(now));
    hide Step, Inv;
    if ops == [] {
      assert Run(s0, ops) == s0;
      RestartAt(s, now, k);
    } else {
      var n := |ops| - 1;
      YoungClaimStuck(s, now, k, ops[..n]);
      StepInv(Run(s0, ops[..n]), ops[n]);
    }
  }

  function Young(): Key { Key(Legacy, "agent", "event") }

  lemma OneClaimed(rows: Rows)
    requires rows.Keys == {Young()} && rows[Young()].state == Pending
    ensures Claims(rows, [Young()])
  {
    assert AllWaiting(rows) == {Young()};
  }

  // A reachable case: a row claimed half a minute before a restart is claimed forever, short of another restart.
  lemma QuickRestartStrands(ops: seq<Op>)
    requires forall i :: 0 <= i < |ops| ==> !ops[i].Restart?
    ensures var s := Run(EMPTY, [Ingest(Young(), 0), Claim(0, [Young()]), Restart(30)] + ops);
      Young() in s.rows && s.rows[Young()].state == Claimed && Young() !in s.hand
  {
    hide Claims;
    var k := Young();
    var a, b, c := Ingest(k, 0), Claim(0, [k]), Restart(30);
    assert [a][..0] == [] && [a, b][..1] == [a] && [a, b, c][..2] == [a, b];
    var s1 := Step(EMPTY, a);
    OneClaimed(s1.rows);
    var s2 := Step(s1, b);
    assert s2.rows[k] == Row(0, Claimed, Some(0), 0);
    assert Run(EMPTY, []) == EMPTY;
    assert Run(EMPTY, [a]) == s1;
    assert Run(EMPTY, [a, b]) == s2;
    assert Run(EMPTY, [a, b, c]) == Step(s2, c);
    StepInv(EMPTY, a);
    StepInv(s1, b);
    RunSplit(EMPTY, [a, b, c], ops);
    hide Step, Inv;
    YoungClaimStuck(s2, 30, k, ops);
  }

  lemma RestartAt(s: State, now: int, k: Key)
    requires k in s.rows && s.rows[k].state == Claimed && !Expired(s.rows[k], now)
    ensures var t := Step(s, Restart(now)); k in t.rows && t.rows[k] == s.rows[k] && t.hand == []
  {
  }

  // ---- claim_batch, step by step ----

  // A run of waiting rows of one queue that starts at its head.
  ghost predicate HeadOf(rows: Rows, q: Queue, part: seq<Key>) {
    && Distinct(part) && (forall i :: 0 <= i < |part| ==> Waiting(rows, part[i]) && part[i].queue == q)
    && (forall i, j :: 0 <= i < j < |part| ==> rows[part[i]].order <= rows[part[j]].order)
    && (forall i, k :: 0 <= i < |part| && Waiting(rows, k) && k.queue == q && rows[k].order < rows[part[i]].order ==> k in part)
  }

  lemma HeadOfHead(rows: Rows, q: Queue, part: seq<Key>, n: nat)
    requires HeadOf(rows, q, part) && n <= |part|
    ensures HeadOf(rows, q, part[..n])
  {
    forall i, k | 0 <= i < n && Waiting(rows, k) && k.queue == q && rows[k].order < rows[part[..n][i]].order
      ensures k in part[..n]
    {
      assert part[..n][i] == part[i];
      var m :| 0 <= m < |part| && part[m] == k;
      assert m < i;
      assert part[..n][m] == k;
    }
  }

  lemma {:induction false} HeadSize(rows: Rows, q: Queue, part: seq<Key>)
    requires HeadOf(rows, q, part)
    ensures |part| <= |WaitingIn(rows, q)|
    ensures |part| == |WaitingIn(rows, q)| ==> forall k :: k in WaitingIn(rows, q) ==> k in part
  {
    var got := set k | k in part;
    DistinctSize(part, got);
    SubtractSize(WaitingIn(rows, q), got);
    if |part| == |WaitingIn(rows, q)| { assert WaitingIn(rows, q) - got == {}; }
  }

  lemma QueuesPartition(rows: Rows)
    ensures |AllWaiting(rows)| == |WaitingIn(rows, Legacy)| + |WaitingIn(rows, Endpoint)| + |WaitingIn(rows, Linux)|
  {
    var a, b, c := WaitingIn(rows, Legacy), WaitingIn(rows, Endpoint), WaitingIn(rows, Linux);
    assert AllWaiting(rows) == (a + b) + c;
    assert a * b == {} && (a + b) * c == {};
    assert |a + b| == |a| + |b|;
  }

  function Part(q: Queue, a: seq<Key>, b: seq<Key>, c: seq<Key>): seq<Key> {
    match q case Legacy => a case Endpoint => b case Linux => c
  }

  ghost predicate Heads(rows: Rows, a: seq<Key>, b: seq<Key>, c: seq<Key>) {
    HeadOf(rows, Legacy, a) && HeadOf(rows, Endpoint, b) && HeadOf(rows, Linux, c)
  }

  // Where a position of the joined list comes from.
  lemma PlaceIn(rows: Rows, a: seq<Key>, b: seq<Key>, c: seq<Key>, i: nat)
    requires Heads(rows, a, b, c) && i < |a + b + c|
    ensures var k := (a + b + c)[i];
      && Waiting(rows, k)
      && var m := i - (match k.queue case Legacy => 0 case Endpoint => |a| case Linux => |a| + |b|);
         0 <= m < |Part(k.queue, a, b, c)| && Part(k.queue, a, b, c)[m] == k
  {
  }

  lemma PartMembers(rows: Rows, a: seq<Key>, b: seq<Key>, c: seq<Key>)
    requires Heads(rows, a, b, c)
    ensures forall k :: k in a + b + c <==> k in Part(k.queue, a, b, c)
    ensures forall q :: ClaimedIn(a + b + c, q) == set k | k in Part(q, a, b, c)
    ensures forall q :: |ClaimedIn(a + b + c, q)| == |Part(q, a, b, c)|
  {
    var keys := a + b + c;
    forall k ensures k in keys <==> k in Part(k.queue, a, b, c) {
      if k in keys {
        var i :| 0 <= i < |keys| && keys[i] == k;
        PlaceIn(rows, a, b, c, i);
      }
    }
    forall q: Queue ensures ClaimedIn(keys, q) == (set k | k in Part(q, a, b, c)) && |ClaimedIn(keys, q)| == |Part(q, a, b, c)| {
      var part := Part(q, a, b, c);
      assert HeadOf(rows, q, part);
      DistinctSize(part, set k | k in part);
      assert forall k :: k in part ==> k.queue == q;
    }
  }

  lemma JoinedInOrder(rows: Rows, a: seq<Key>, b: seq<Key>, c: seq<Key>, i: nat, j: nat)
    requires Heads(rows, a, b, c) && i < j < |a + b + c|
    ensures var x, y := (a + b + c)[i], (a + b + c)[j];
      && Waiting(rows, x) && Waiting(rows, y) && x != y
      && (Rank(x.queue) < Rank(y.queue) || (x.queue == y.queue && rows[x].order <= rows[y].order))
  {
    hide Heads;
    PlaceIn(rows, a, b, c, i);
    PlaceIn(rows, a, b, c, j);
    var x := (a + b + c)[i];
    PartIsHead(rows, a, b, c, x.queue);
  }

  lemma PartIsHead(rows: Rows, a: seq<Key>, b: seq<Key>, c: seq<Key>, q: Queue)
    requires Heads(rows, a, b, c)
    ensures HeadOf(rows, q, Part(q, a, b, c))
  {
  }

  // Heads of the three queues, in the right number and fairly shared, make up a batch.
  lemma JoinClaims(rows: Rows, a: seq<Key>, b: seq<Key>, c: seq<Key>)
    requires Heads(rows, a, b, c)
    requires |a| + |b| + |c| == Min(CLAIM_LIMIT, |AllWaiting(rows)|)
    requires forall p, q :: |Part(p, a, b, c)| < |WaitingIn(rows, p)| ==> |Part(q, a, b, c)| <= |Part(p, a, b, c)| + 1
    ensures Claims(rows, a + b + c)
  {
    hide Heads, HeadOf, Waiting, WaitingIn, AllWaiting, ClaimedIn, Part, Rank;
    var keys := a + b + c;
    PartMembers(rows, a, b, c);
    WaitingAreRows(rows);
    forall i, j | 0 <= i < j < |keys|
      ensures keys[i] != keys[j] && Waiting(rows, keys[i]) && Waiting(rows, keys[j])
      ensures keys[i] in rows && keys[j] in rows
      ensures Rank(keys[i].queue) < Rank(keys[j].queue) || (keys[i].queue == keys[j].queue && rows[keys[i]].order <= rows[keys[j]].order)
    {
      JoinedInOrder(rows, a, b, c, i, j);
    }
    forall k | k in keys ensures Waiting(rows, k) && k in rows {
      var i :| 0 <= i < |keys| && keys[i] == k;
      PlaceIn(rows, a, b, c, i);
    }
    forall k, j | k in keys && Waiting(rows, j) && j.queue == k.queue && j in rows && rows[j].order < rows[k].order ensures j in keys {
      PartIsHead(rows, a, b, c, k.queue);
      HeadClosed(rows, k.queue, Part(k.queue, a, b, c), k, j);
    }
    forall j, q | Waiting(rows, j) && j !in keys ensures |ClaimedIn(keys, q)| <= |ClaimedIn(keys, j.queue)| + 1 {
      PartIsHead(rows, a, b, c, j.queue);
      LeftOver(rows, j.queue, Part(j.queue, a, b, c), j);
    }
    assert forall k, j :: k in keys && Waiting(rows, j) && j.queue == k.queue && j in rows && rows[j].order < rows[k].order ==> j in keys;
  }

  lemma WaitingAreRows(rows: Rows)
    ensures (forall k :: Waiting(rows, k) ==> k in rows) && AllWaiting(rows) <= rows.Keys
  {
  }

  lemma HeadClosed(rows: Rows, q: Queue, part: seq<Key>, k: Key, j: Key)
    requires HeadOf(rows, q, part) && k in part && k in rows && Waiting(rows, j) && j.queue == q && rows[j].order < rows[k].order
    ensures j in part
  {
  }

  lemma LeftOver(rows: Rows, q: Queue, part: seq<Key>, j: Key)
    requires HeadOf(rows, q, part) && Waiting(rows, j) && j.queue == q && j !in part
    ensures |part| < |WaitingIn(rows, q)|
  {
    HeadSize(rows, q, part);
    assert j in WaitingIn(rows, q);
  }

  class Tables {
    var rows: Rows

    constructor ()
      ensures rows == EMPTY.rows
    {
      rows := map[];
    }

    // revert_stale_claims, on startup
    method RevertStaleClaims(now: int) returns (n: nat)
      modifies this
      ensures forall hand :: rows == Step(State(old(rows), hand), Restart(now)).rows
      ensures n == |set k | k in old(rows) && Expired(old(rows)[k], now)|
      ensures rows.Keys == old(rows).Keys
      ensures forall k :: k in rows ==> var was := old(rows)[k];
        rows[k] == if was.state == Claimed && (was.claimedAt.None? || was.claimedAt.value < now - LEASE)
                   then was.(state := Pending, claimedAt := None) else was
    {
      var stale := set k | k in rows && Expired(rows[k], now);
      n := |stale|;
      rows := UpdateEach(rows, stale, (r: Row) => r.(state := Pending, claimedAt := None));
      assert rows == Reverted(old(rows), now);
    }

    // SELECT ... WHERE pending ORDER BY ... LIMIT
    method Offer(q: Queue) returns (list: seq<Key>)
      ensures HeadOf(rows, q, list) && |list| == Min(CLAIM_LIMIT, |WaitingIn(rows, q)|)
    {
      var table := rows;
      list := OrderBy(WaitingIn(rows, q), (k: Key) => if k in table then table[k].order else 0);
      DistinctSize(list, WaitingIn(rows, q));
      assert forall i :: 0 <= i < |list| ==> list[i] in WaitingIn(rows, q);
      assert HeadOf(rows, q, list);
      if |list| > CLAIM_LIMIT {
        HeadOfHead(rows, q, list, CLAIM_LIMIT);
        list := list[..CLAIM_LIMIT];
      }
    }

    method ClaimBatch(now: int) returns (keys: seq<Key>)
      modifies this
      ensures Claims(old(rows), keys)
      ensures State(rows, keys) == Step(State(old(rows), []), Claim(now, keys))
      ensures rows.Keys == old(rows).Keys
      ensures forall k :: k in rows ==>
        rows[k] == if k in keys then old(rows)[k].(state := Claimed, claimedAt := Some(now)) else old(rows)[k]
    {
      hide Claims, HeadOf, WaitingIn, AllWaiting, Sum;
      var legacy := Offer(Legacy);
      var canonical := Offer(Endpoint);
      var linux := Offer(Linux);
      var take := Share([|legacy|, |canonical|, |linux|]);
      BatchFromShares(rows, legacy, canonical, linux, take);
      keys := legacy[..take[0]] + canonical[..take[1]] + linux[..take[2]];
      ClaimsSize(rows, keys);
      WaitingAreRows(rows);
      rows := UpdateEach(rows, (set k | k in keys), TakenAt(now));
    }

    // process_claimed: ok says whether the engine processed the row.
    method ProcessClaimed(keys: seq<Key>, ok: Key -> bool)
      requires Distinct(keys) && forall k :: k in keys ==> k in rows
      modifies this
      ensures rows.Keys == old(rows).Keys
      ensures forall k :: k in rows ==>
        rows[k] == if k in keys then Resolved(k.queue, old(rows)[k], ok(k)) else old(rows)[k]
      ensures forall k :: k in keys ==> k in rows && rows[k].state == if ok(k) then Done else Failed
    {
      var i := 0;
      while i < |keys|
        invariant 0 <= i <= |keys| && rows.Keys == old(rows).Keys
        invariant forall k :: k in rows ==>
          rows[k] == if k in keys[..i] then Resolved(k.queue, old(rows)[k], ok(k)) else old(rows)[k]
      {
        var k := keys[i];
        assert k !in keys[..i];
        assert keys[..i + 1] == keys[..i] + [k];
        if ok(k) {
          var kept := if k.queue == Legacy then rows[k].claimedAt else None;
          rows := rows[k := rows[k].(state := Done, claimedAt := kept)];
        } else {
          MarkFailed(k);
        }
        i := i + 1;
      }
      assert keys[..i] == keys;
    }

    // _mark_failed
    method MarkFailed(k: Key)
      requires k in rows
      modifies this
      ensures rows == old(rows)[k := Resolved(k.queue, old(rows)[k], false)]
    {
      var r := rows[k];
      if k.queue == Legacy {
        rows := rows[k := r.(state := Failed, attempts := r.attempts + 1)];
      } else {
        rows := rows[k := r.(state := Failed, claimedAt := None, attempts := r.attempts + 1)];
      }
    }

    // run_once: one claim and process cycle.
    method RunOnce(now: int, ok: Key -> bool) returns (n: nat)
      modifies this
      ensures n == Min(CLAIM_LIMIT, |AllWaiting(old(rows))|)
      ensures CycleStep(old(rows), rows)
      ensures rows.Keys == old(rows).Keys
      ensures forall k :: k in rows ==>
        rows[k] == old(rows)[k] || rows[k] == Resolved(k.queue, TakenAt(now)(old(rows)[k]), ok(k))
      ensures forall k :: k in rows && rows[k] != old(rows)[k] ==>
        && old(rows)[k].state == Pending && rows[k].order == old(rows)[k].order
        && rows[k].state == (if ok(k) then Done else Failed)
        && rows[k].attempts == old(rows)[k].attempts + (if ok(k) then 0 else 1)
        && rows[k].claimedAt == if k.queue == Legacy then Some(now) else None
      ensures |AllWaiting(rows)| == |AllWaiting(old(rows))| - n
    {
      hide AllWaiting;
      var keys := ClaimBatch(now);
      ghost var mid := rows;
      n := |keys|;
      ProcessClaimed(keys, ok);
      ghost var oks := seq(|keys|, i requires 0 <= i < |keys| => ok(keys[i]));
      CycleFits(old(rows), mid, rows, keys, now, ok, oks);
      ClaimsSize(old(rows), keys);
      CycleCounts(old(rows), rows);
    }
  }

  lemma BatchFromShares(rows: Rows, a: seq<Key>, b: seq<Key>, c: seq<Key>, take: seq<nat>)
    requires HeadOf(rows, Legacy, a) && |a| == Min(CLAIM_LIMIT, |WaitingIn(rows, Legacy)|)
    requires HeadOf(rows, Endpoint, b) && |b| == Min(CLAIM_LIMIT, |WaitingIn(rows, Endpoint)|)
    requires HeadOf(rows, Linux, c) && |c| == Min(CLAIM_LIMIT, |WaitingIn(rows, Linux)|)
    requires Fair([|a|, |b|, |c|], take) && Sum(take) == Min(CLAIM_LIMIT, Sum([|a|, |b|, |c|]))
    ensures Claims(rows, a[..take[0]] + b[..take[1]] + c[..take[2]])
  {
    hide Claims, HeadOf, WaitingIn, AllWaiting, Sum;
    SumOfThree([|a|, |b|, |c|]);
    SumOfThree(take);
    HeadOfHead(rows, Legacy, a, take[0]);
    HeadOfHead(rows, Endpoint, b, take[1]);
    HeadOfHead(rows, Linux, c, take[2]);
    QueuesPartition(rows);
    var x, y, z := |WaitingIn(rows, Legacy)|, |WaitingIn(rows, Endpoint)|, |WaitingIn(rows, Linux)|;
    SharesOfWhole(x, y, z, [|a|, |b|, |c|], take);
    JoinClaims(rows, a[..take[0]], b[..take[1]], c[..take[2]]);
  }

  // Reading at most a batch from each queue does not change the shares.
  lemma SharesOfWhole(x: nat, y: nat, z: nat, lens: seq<nat>, take: seq<nat>)
    requires lens == [Min(CLAIM_LIMIT, x), Min(CLAIM_LIMIT, y), Min(CLAIM_LIMIT, z)] && Fair(lens, take)
    requires take[0] + take[1] + take[2] == Min(CLAIM_LIMIT, lens[0] + lens[1] + lens[2])
    ensures take[0] + take[1] + take[2] == Min(CLAIM_LIMIT, x + y + z)
    ensures Fair([x, y, z], take)
  {
  }

  lemma SumOfThree(s: seq<nat>)
    requires |s| == 3
    ensures Sum(s) == s[0] + s[1] + s[2]
  {
    assert s[..2][..1][..0] == [];
    assert Sum(s[..2][..1]) == s[0];
    assert Sum(s[..2]) == s[0] + s[1];
  }

  lemma CycleFits(rows: Rows, mid: Rows, after: Rows, keys: seq<Key>, now: int, ok: Key -> bool, oks: seq<bool>)
    requires Claims(rows, keys) && mid == Updated(rows, (set k | k in keys), TakenAt(now))
    requires after.Keys == mid.Keys && |oks| == |keys| && forall i :: 0 <= i < |keys| ==> oks[i] == ok(keys[i])
    requires forall k :: k in after ==> after[k] == if k in keys then Resolved(k.queue, mid[k], ok(k)) else mid[k]
    ensures CycleStep(rows, after)
  {
    hide Claims, Resolved;
    ClaimsSize(rows, keys);
    WaitingAreRows(rows);
    assert CycleDone(rows, after, keys, now, oks);
  }
}
