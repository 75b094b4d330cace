// Capture age from one-use challenges, manager/endpoint_freshness.py, inside the batch transaction of
// manager/routers/endpoint.py. A nonce stands for its digest; a server epoch is one process lifetime.
module Freshness {
  import opened Aggregates

  function Ns(ms: int): int { ms * 1_000_000 }

  const CHALLENGE_NS := 15_000_000_000
  const FRESH_MS := 90_000
  const CLOCK_GUARD_MS := 100
  const MAX_U64 := 0xFFFF_FFFF_FFFF_FFFF

  type Key = (string, string)  // agent and record

  datatype Challenge = Challenge(nonce: string, epoch: string, issued: int, consumed: bool)
  datatype Age = Age(epoch: string, received: int, upper: int)
  datatype State = State(
    epoch: string,
    challenges: map<string, Challenge>,
    stored: map<Key, string>,
    ages: map<Key, Age>)

  // Which collector, on which boot of which installation, a reading belongs to.
  datatype Scope = Scope(installation: string, boot: Option<string>, generation: Option<string>, collector: string)
  // The capture context of a batch; None in an event when it or the nonce is absent or malformed.
  datatype Header = Header(nonce: string, installation: string, boot: string, generation: string, collector: string, sendMs: nat)
  // capture is the uptime reading, when it was taken with the uptime clock; forks is what observe_generation
  // answers for the record.
  datatype Record = Record(id: string, digest: string, scope: Scope, capture: Option<nat>, forks: bool)
  datatype Proof = Proof(scope: Scope, sendMs: nat, elapsedMs: int, received: int)

  // at and sent are true instants in nanoseconds that no operation reads; clock is what clock_ns returned.
  datatype Event =
    | Issue(at: int, agent: string, nonce: string, clock: Option<int>)
    | Batch(at: int, sent: int, agent: string, header: Option<Header>, records: seq<Record>, clock: Option<int>)
    | Restart(epoch: string)

  function RoundedUpMs(ns: int): (ms: int)
    ensures Ns(ms - 1) < ns <= Ns(ms)
  {
    (ns + 999_999) / 1_000_000
  }

  function HeaderScope(h: Header): Scope {
    Scope(h.installation, Some(h.boot), Some(h.generation), h.collector)
  }

  // consume grants a proof for the challenge row.
  predicate Answers(c: Challenge, epoch: string, nonce: string, now: int) {
    !c.consumed && c.epoch == epoch && c.nonce == nonce && 0 <= now - c.issued <= CHALLENGE_NS
  }

  function ProofFor(s: State, agent: string, header: Option<Header>, clock: Option<int>): Option<Proof> {
    if header.None? || clock.None? || agent !in s.challenges then None
    else if !Answers(s.challenges[agent], s.epoch, header.value.nonce, clock.value) then None
    else Some(Proof(HeaderScope(header.value), header.value.sendMs,
                    RoundedUpMs(clock.value - s.challenges[agent].issued), clock.value))
  }

  function Consumed(s: State, agent: string): State
    requires agent in s.challenges
  {
    s.(challenges := s.challenges[agent := s.challenges[agent].(consumed := true)])
  }

  function UpperBound(r: Record, p: Proof): int
    requires r.capture.Some?
  {
    p.sendMs - r.capture.value + p.elapsedMs + CLOCK_GUARD_MS
  }

  // record_age accepts the proof for the record.
  predicate Ages(r: Record, proof: Option<Proof>) {
    && proof.Some? && r.capture.Some? && r.scope == proof.value.scope
    && r.capture.value <= proof.value.sendMs && UpperBound(r, proof.value) <= MAX_U64
  }

  // One new record: its row, and its age unless one is already there (INSERT OR IGNORE).
  function StoreOne(s: State, agent: string, r: Record, proof: Option<Proof>): State {
    var t := s.(stored := s.stored[(agent, r.id) := r.digest]);
    if Ages(r, proof) && (agent, r.id) !in s.ages
    then t.(ages := s.ages[(agent, r.id) := Age(s.epoch, proof.value.received, UpperBound(r, proof.value))])
    else t
  }

  // One record of a batch; None is a record identity collision or a generation fork.
  function StoreNext(s: State, agent: string, r: Record, proof: Option<Proof>): Option<State> {
    if (agent, r.id) in s.stored then (if s.stored[(agent, r.id)] == r.digest then Some(s) else None)
    else if r.forks then None
    else Some(StoreOne(s, agent, r, proof))
  }

  // The records of a batch; None rolls the whole batch back.
  function StoreAll(s: State, agent: string, records: seq<Record>, proof: Option<Proof>): Option<State>
    decreases |records|
  {
    if records == [] then Some(s)
    else
      var next := StoreNext(s, agent, records[0], proof);
      if next.None? then None else StoreAll(next.value, agent, records[1..], proof)
  }

  function Opened(s: State, agent: string, proof: Option<Proof>): State {
    if proof.Some? && agent in s.challenges then Consumed(s, agent) else s
  }

  function BatchResult(s: State, e: Event): Option<State>
    requires e.Batch?
  {
    var proof := ProofFor(s, e.agent, e.header, e.clock);
    StoreAll(Opened(s, e.agent, proof), e.agent, e.records, proof)
  }

  function Step(s: State, e: Event): State {
    match e
    case Issue(_, agent, nonce, clock) =>
      if clock.None? then s
      else s.(challenges := s.challenges[agent := Challenge(nonce, s.epoch, clock.value, false)])
    case Batch(_, _, _, _, _, _) =>
      var t := BatchResult(s, e);
      if t.Some? then t.value else s
    case Restart(epoch) => s.(epoch := epoch)
  }

  function Run(s: State, events: seq<Event>): State
    decreases |events|
  {
    if events == [] then s else Step(Run(s, events[..|events| - 1]), events[|events| - 1])
  }

  function Start(epoch: string): State { State(epoch, map[], map[], map[]) }

  datatype Status = Unverified | Known(ageMs: int)

  predicate Fresh(st: Status) { st.Known? && st.ageMs <= FRESH_MS }
  predicate Stale(st: Status) { st.Known? && st.ageMs > FRESH_MS }

  function StatusOf(s: State, key: Key, clock: Option<int>): Status {
    if key !in s.ages || s.ages[key].epoch != s.epoch || clock.None? || clock.value < s.ages[key].received then Unverified
    else Known(s.ages[key].upper + RoundedUpMs(clock.value - s.ages[key].received))
  }

  // ---- the clocks ----

  // True instants: when each server process's and each endpoint boot's clock read zero, when each nonce was
  // issued, when each record was captured; and how far a reading may lag behind the true instant.
  datatype World = World(
    serverZero: string -> int, bootZero: string -> int,
    issuedAt: string -> int, capturedAt: Key -> int,
    serverLag: nat, endpointLag: nat)

  predicate WithinGuard(w: World) { w.serverLag + w.endpointLag <= Ns(CLOCK_GUARD_MS) }

  predicate ServerReads(w: World, epoch: string, at: int, reading: int) {
    reading <= at - w.serverZero(epoch) <= reading + w.serverLag
  }

  predicate EndpointReads(w: World, boot: string, at: int, ms: int) {
    Ns(ms) <= at - w.bootZero(boot) <= Ns(ms) + w.endpointLag
  }

  // Clocks run at the rate of true time, and an endpoint reads its send time after it learned the nonce.
  ghost predicate Faithful(w: World, epoch: string, e: Event) {
    match e
    case Issue(at, _, nonce, clock) => clock.Some? ==> at == w.issuedAt(nonce) && ServerReads(w, epoch, at, clock.value)
    case Batch(at, sent, agent, header, records, clock) =>
      header.Some? && clock.Some? ==>
        && ServerReads(w, epoch, at, clock.value)
        && w.issuedAt(header.value.nonce) <= sent <= at
        && EndpointReads(w, header.value.boot, sent, header.value.sendMs)
        && forall i :: 0 <= i < |records| ==> TrueCapture(w, agent, records[i])
    case Restart(_) => true
  }

  ghost predicate TrueCapture(w: World, agent: string, r: Record) {
    r.capture.Some? && r.scope.boot.Some? ==> EndpointReads(w, r.scope.boot.value, w.capturedAt((agent, r.id)), r.capture.value)
  }

  ghost predicate FaithfulRun(w: World, s: State, events: seq<Event>)
    decreases |events|
  {
    events == [] ||
    (FaithfulRun(w, s, events[..|events| - 1])
     && Faithful(w, Run(s, events[..|events| - 1]).epoch, events[|events| - 1]))
  }

  // ---- the age bound ----

  // What a row promises: its bound covers the time from capture to receipt, and by no more than the longest
  // challenge, the guard and the lags.
  const SLACK := CHALLENGE_NS + Ns(2 * CLOCK_GUARD_MS)

  ghost predicate RowBounds(w: World, key: Key, a: Age) {
    && w.serverZero(a.epoch) + a.received + w.serverLag - w.capturedAt(key) <= Ns(a.upper)
    && Ns(a.upper) < w.serverZero(a.epoch) + a.received - w.capturedAt(key) + SLACK + Ns(1)
  }

  ghost predicate Bounded(w: World, s: State) {
    && (forall a :: a in s.challenges ==>
          s.challenges[a].issued + w.serverZero(s.challenges[a].epoch) <= w.issuedAt(s.challenges[a].nonce))
    && (forall k :: k in s.ages ==> RowBounds(w, k, s.ages[k]))
  }

  // What the server may conclude from a proof: the send time was read after the challenge was issued.
  ghost predicate SoundProof(w: World, epoch: string, p: Proof, sent: int, issued: int) {
    && p.scope.boot.Some?
    && EndpointReads(w, p.scope.boot.value, sent, p.sendMs)
    && issued + w.serverZero(epoch) <= sent <= w.serverZero(epoch) + p.received + w.serverLag
    && p.elapsedMs == RoundedUpMs(p.received - issued) && 0 <= p.received - issued <= CHALLENGE_NS
  }

  lemma RowSound(w: World, epoch: string, agent: string, r: Record, p: Proof, sent: int, issued: int)
    requires WithinGuard(w) && SoundProof(w, epoch, p, sent, issued) && Ages(r, Some(p)) && TrueCapture(w, agent, r)
    ensures RowBounds(w, (agent, r.id), Age(epoch, p.received, UpperBound(r, p)))
  {
    assert EndpointReads(w, p.scope.boot.value, w.capturedAt((agent, r.id)), r.capture.value);
  }

  lemma {:induction false} StoreBounded(w: World, s: State, agent: string, records: seq<Record>, proof: Option<Proof>, sent: int, issued: int)
    requires WithinGuard(w) && Bounded(w, s)
    requires proof.Some? ==> SoundProof(w, s.epoch, proof.value, sent, issued)
    requires proof.Some? ==> forall i :: 0 <= i < |records| ==> TrueCapture(w, agent, records[i])
    ensures var t := StoreAll(s, agent, records, proof);
      t.Some? ==> Bounded(w, t.value) && t.value.epoch == s.epoch
    decreases |records|
  {
    hide SoundProof, RowBounds, TrueCapture, UpperBound;
    if records != [] {
      var r := records[0];
      if Ages(r, proof) { RowSound(w, s.epoch, agent, r, proof.value, sent, issued); }
      var next := StoreNext(s, agent, r, proof);
      if next.Some? { StoreBounded(w, next.value, agent, records[1..], proof, sent, issued); }
    }
  }

  lemma StepBounded(w: World, s: State, e: Event)
    requires WithinGuard(w) && Bounded(w, s) && Faithful(w, s.epoch, e)
    ensures Bounded(w, Step(s, e))
  {
    hide RowBounds, StoreAll;
    if e.Batch? {
      var proof := ProofFor(s, e.agent, e.header, e.clock);
      var issued := if proof.Some? then s.challenges[e.agent].issued else 0;
      assert proof.Some? ==> SoundProof(w, s.epoch, proof.value, e.sent, issued);
      StoreBounded(w, Opened(s, e.agent, proof), e.agent, e.records, proof, e.sent, issued);
    }
  }

  lemma {:induction false} RunBounded(w: World, s: State, events: seq<Event>)
    requires WithinGuard(w) && Bounded(w, s) && FaithfulRun(w, s, events)
    ensures Bounded(w, Run(s, events))
    decreases |events|
  {
    hide Bounded, Faithful, Step;
    if events != [] {
      RunBounded(w, s, events[..|events| - 1]);
      StepBounded(w, Run(s, events[..|events| - 1]), events[|events| - 1]);
    }
  }

  // After any run, at any true instant: the reported age is at least the true one, and exceeds it by less than
  // the challenge lifetime, twice the guard and two roundings.
  lemma AgeIsBound(w: World, epoch: string, events: seq<Event>, key: Key, at: int, now: int)
    requires WithinGuard(w) && FaithfulRun(w, Start(epoch), events)
    requires ServerReads(w, Run(Start(epoch), events).epoch, at, now)
    ensures var st := StatusOf(Run(Start(epoch), events), key, Some(now));
      st.Known? ==> at - w.capturedAt(key) <= Ns(st.ageMs) < at - w.capturedAt(key) + SLACK + Ns(2)
  {
    RunBounded(w, Start(epoch), events);
    var s := Run(Start(epoch), events);
    if key in s.ages { assert RowBounds(w, key, s.ages[key]); }
  }

  // A record called fresh was captured within 90 seconds; one with an age and captured within 74 is called fresh.
  lemma FreshIsRecent(w: World, epoch: string, events: seq<Event>, key: Key, at: int, now: int)
    requires WithinGuard(w) && FaithfulRun(w, Start(epoch), events)
    requires ServerReads(w, Run(Start(epoch), events).epoch, at, now)
    ensures var st := StatusOf(Run(Start(epoch), events), key, Some(now));
      && (Fresh(st) ==> at - w.capturedAt(key) <= Ns(FRESH_MS))
      && (st.Known? && at - w.capturedAt(key) <= Ns(FRESH_MS) - SLACK - Ns(2) ==> Fresh(st))
  {
    AgeIsBound(w, epoch, events, key, at, now);
  }

  // A report made at true instant `at` does not understate the age.
  ghost predicate Covers(w: World, epoch: string, events: seq<Event>, key: Key, at: int, now: int) {
    FaithfulRun(w, Start(epoch), events) && ServerReads(w, Run(Start(epoch), events).epoch, at, now) ==>
      var st := StatusOf(Run(Start(epoch), events), key, Some(now));
      st.Known? ==> at - w.capturedAt(key) <= Ns(st.ageMs)
  }

  // The guard is exact: every report of every run covers the true age if and only if the two clocks together
  // lag by at most the guard.
  lemma GuardIsExact(serverLag: nat, endpointLag: nat)
    ensures
      (forall w: World, epoch, events, key, at, now ::
         w.serverLag == serverLag && w.endpointLag == endpointLag ==> Covers(w, epoch, events, key, at, now))
      <==> serverLag + endpointLag <= Ns(CLOCK_GUARD_MS)
  {
    if serverLag + endpointLag <= Ns(CLOCK_GUARD_MS) {
      forall w: World, epoch, events, key, at, now | w.serverLag == serverLag && w.endpointLag == endpointLag
        ensures Covers(w, epoch, events, key, at, now)
      {
        if FaithfulRun(w, Start(epoch), events) && ServerReads(w, Run(Start(epoch), events).epoch, at, now) {
          AgeIsBound(w, epoch, events, key, at, now);
        }
      }
    } else {
      LagUnderstates(serverLag, endpointLag);
    }
  }

  // A capture at instant 0 sent as late, and reported as late, as the lags allow.
  lemma LagUnderstates(serverLag: nat, endpointLag: nat)
    requires serverLag + endpointLag > Ns(CLOCK_GUARD_MS)
    ensures exists w: World, events, key, at, now ::
      w.serverLag == serverLag && w.endpointLag == endpointLag && !Covers(w, "e", events, key, at, now)
  {
    hide FaithfulRun, StatusOf, Step;
    var t := endpointLag;
    var w := World(_ => 0, _ => 0, _ => t, _ => 0, serverLag, endpointLag);
    var events := [LateIssue(t), LateBatch(t)];
    LateRun(t);
    LateFaithful(w, t);
    assert !Covers(w, "e", events, ("a", "r"), t + serverLag, t);
  }

  function LateIssue(t: int): Event { Issue(t, "a", "n", Some(t)) }
  function LateRecord(): Record { Record("r", "d", Scope("i", Some("b"), Some("1"), "c"), Some(0), false) }
  function LateBatch(t: int): Event { Batch(t, t, "a", Some(Header("n", "i", "b", "1", "c", 0)), [LateRecord()], Some(t)) }

  lemma LateRun(t: int)
    ensures var s := Run(Start("e"), [LateIssue(t), LateBatch(t)]); s.epoch == "e" && StatusOf(s, ("a", "r"), Some(t)) == Known(100)
    ensures Run(Start("e"), [LateIssue(t)]) == Step(Start("e"), LateIssue(t))
  {
    var e0, e1, r := LateIssue(t), LateBatch(t), LateRecord();
    var s0 := Start("e");
    var s1 := Step(s0, e0);
    var proof := ProofFor(s1, "a", e1.header, e1.clock);
    var s2 := StoreOne(Opened(s1, "a", proof), "a", r, proof);
    assert [e0][..0] == [] && [e0, e1][..1] == [e0] && [r][1..] == [];
    assert Run(s0, [e0]) == s1;
    assert StoreAll(s2, "a", [], proof) == Some(s2);
    assert BatchResult(s1, e1) == Some(s2);
    assert Run(s0, [e0, e1]) == s2;
  }

  lemma LateFaithful(w: World, t: nat)
    requires w == World(w.serverZero, w.bootZero, w.issuedAt, w.capturedAt, w.serverLag, t)
    requires w.serverZero("e") == 0 && w.bootZero("b") == 0 && w.issuedAt("n") == t && w.capturedAt(("a", "r")) == 0
    ensures FaithfulRun(w, Start("e"), [LateIssue(t), LateBatch(t)])
  {
    hide Step, StatusOf;
    var e0, e1 := LateIssue(t), LateBatch(t);
    assert [e0][..0] == [] && [e0, e1][..1] == [e0];
    assert FaithfulRun(w, Start("e"), []);
    StartEpoch(t);
    assert FaithfulRun(w, Start("e"), [e0]);
    assert EndpointReads(w, "b", t, 0) && EndpointReads(w, "b", 0, 0);
  }

  lemma StartEpoch(t: int)
    ensures Run(Start("e"), []).epoch == "e" && Run(Start("e"), [LateIssue(t)]).epoch == "e"
  {
    assert [LateIssue(t)][..0] == [];
  }

  // ---- along runs ----

  ghost predicate Extends(s: State, t: State) {
    && (forall k :: k in s.ages ==> k in t.ages && t.ages[k] == s.ages[k])
    && (forall k :: k in s.stored ==> k in t.stored && t.stored[k] == s.stored[k])
  }

  // A record has an age only if it is stored, so the insertion of an age is never ignored.
  ghost predicate AgesStored(s: State) { s.ages.Keys <= s.stored.Keys }

  lemma {:induction false} StoreExtends(s: State, agent: string, records: seq<Record>, proof: Option<Proof>)
    ensures var t := StoreAll(s, agent, records, proof);
      t.Some? ==>
        && Extends(s, t.value) && t.value.epoch == s.epoch && t.value.challenges == s.challenges
        && (AgesStored(s) ==> AgesStored(t.value))
    decreases |records|
  {
    if records != [] {
      var next := StoreNext(s, agent, records[0], proof);
      if next.Some? { StoreExtends(next.value, agent, records[1..], proof); }
    }
  }

  lemma StepExtends(s: State, e: Event)
    ensures Extends(s, Step(s, e)) && (AgesStored(s) ==> AgesStored(Step(s, e)))
    ensures Step(s, e).epoch == if e.Restart? then e.epoch else s.epoch
  {
    hide StoreAll;
    if e.Batch? {
      var proof := ProofFor(s, e.agent, e.header, e.clock);
      StoreExtends(Opened(s, e.agent, proof), e.agent, e.records, proof);
    }
  }

  // No restart of the run reuses the epoch.
  ghost predicate Avoids(events: seq<Event>, epoch: string) {
    forall i :: 0 <= i < |events| && events[i].Restart? ==> events[i].epoch != epoch
  }

  ghost predicate NoRestart(events: seq<Event>) { forall i :: 0 <= i < |events| ==> !events[i].Restart? }

  lemma {:induction false} RunExtends(s: State, events: seq<Event>)
    ensures Extends(s, Run(s, events)) && (AgesStored(s) ==> AgesStored(Run(s, events)))
    ensures NoRestart(events) ==> Run(s, events).epoch == s.epoch
    ensures forall epoch :: Avoids(events, epoch) && !NoRestart(events) ==> Run(s, events).epoch != epoch
    ensures forall epoch :: Avoids(events, epoch) && s.epoch != epoch ==> Run(s, events).epoch != epoch
    decreases |events|
  {
    hide Step;
    if events != [] {
      var n := |events| - 1;
      var first, last := events[..n], events[n];
      RunExtends(s, first);
      StepExtends(Run(s, first), last);
      assert events == first + [last];
      assert NoRestart(events) <==> NoRestart(first) && !last.Restart?;
      assert forall epoch :: Avoids(events, epoch) ==> Avoids(first, epoch) && (last.Restart? ==> last.epoch != epoch);
    }
  }

  lemma EveryAgeStored(epoch: string, events: seq<Event>)
    ensures AgesStored(Run(Start(epoch), events))
  {
    RunExtends(Start(epoch), events);
  }

  // Whatever happens between two readings, with a clock that does not go back inside one process and epochs
  // that are not reused: the reported age never decreases, and a stale record is never fresh again.
  lemma StaleStaysStale(s: State, events: seq<Event>, key: Key, now: int, later: int)
    requires key in s.ages ==> Avoids(events, s.ages[key].epoch)
    requires NoRestart(events) ==> now <= later
    ensures var before, after := StatusOf(s, key, Some(now)), StatusOf(Run(s, events), key, Some(later));
      && (before.Known? && after.Known? ==> before.ageMs <= after.ageMs)
      && (Stale(before) ==> !Fresh(after))
  {
    RunExtends(s, events);
  }

  // ---- one proof per challenge ----

  // The event commits a proof.
  ghost predicate Proves(s: State, e: Event) {
    e.Batch? && ProofFor(s, e.agent, e.header, e.clock).Some? && BatchResult(s, e).Some?
  }

  ghost predicate DistinctNonces(events: seq<Event>) {
    forall i, j :: 0 <= i < j < |events| && events[i].Issue? && events[j].Issue? ==> events[i].nonce != events[j].nonce
  }

  ghost predicate Issued(events: seq<Event>, nonce: string) {
    exists i :: 0 <= i < |events| && events[i].Issue? && events[i].nonce == nonce
  }

  // Nonces in the table were issued and are held by one agent.
  ghost predicate NonceInv(s: State, events: seq<Event>) {
    && (forall a :: a in s.challenges ==> Issued(events, s.challenges[a].nonce))
    && (forall a, b :: a in s.challenges && b in s.challenges && s.challenges[a].nonce == s.challenges[b].nonce ==> a == b)
  }

  // How a step moves the challenge table.
  lemma StepChallenges(s: State, e: Event)
    ensures var t := Step(s, e);
      t.challenges ==
        if e.Issue? && e.clock.Some? then s.challenges[e.agent := Challenge(e.nonce, s.epoch, e.clock.value, false)]
        else if Proves(s, e) then s.challenges[e.agent := s.challenges[e.agent].(consumed := true)]
        else s.challenges
    ensures Proves(s, e) ==> e.agent in s.challenges
  {
    hide StoreAll;
    if e.Batch? {
      var proof := ProofFor(s, e.agent, e.header, e.clock);
      StoreExtends(Opened(s, e.agent, proof), e.agent, e.records, proof);
    }
  }

  lemma StepNonces(s: State, past: seq<Event>, e: Event)
    requires NonceInv(s, past) && (e.Issue? ==> !Issued(past, e.nonce))
    ensures NonceInv(Step(s, e), past + [e])
  {
    hide Step, Proves, Issued;
    StepChallenges(s, e);
    IssuedMore(past + [e], |past|);
    assert (past + [e])[..|past|] == past;
    if e.Issue? { IssuedLast(past, e); }
  }

  lemma IssuedLast(past: seq<Event>, e: Event)
    requires e.Issue?
    ensures Issued(past + [e], e.nonce)
  {
    assert (past + [e])[|past|] == e;
  }

  lemma {:induction false} RunNonces(epoch: string, events: seq<Event>)
    requires DistinctNonces(events)
    ensures NonceInv(Run(Start(epoch), events), events)
    decreases |events|
  {
    hide Step;
    if events != [] {
      var n := |events| - 1;
      RunNonces(epoch, events[..n]);
      assert events == events[..n] + [events[n]];
      StepNonces(Run(Start(epoch), events[..n]), events[..n], events[n]);
    }
  }

  lemma IssuedMore(events: seq<Event>, n: nat)
    requires n <= |events|
    ensures forall nonce :: Issued(events[..n], nonce) ==> Issued(events, nonce)
  {
    forall nonce | Issued(events[..n], nonce) ensures Issued(events, nonce) {
      var i :| 0 <= i < n && events[..n][i].Issue? && events[..n][i].nonce == nonce;
      assert events[i].Issue?;
    }
  }

  // The nonce can never be answered again: no row holds it unconsumed and no later event issues it.
  ghost predicate Spent(s: State, nonce: string) {
    forall a :: a in s.challenges && s.challenges[a].nonce == nonce ==> s.challenges[a].consumed
  }

  lemma {:induction false} SpentStays(s: State, events: seq<Event>, nonce: string)
    requires Spent(s, nonce) && !Issued(events, nonce)
    ensures Spent(Run(s, events), nonce)
    decreases |events|
  {
    hide Step, Proves;
    if events != [] {
      var n := |events| - 1;
      IssuedMore(events, n);
      SpentStays(s, events[..n], nonce);
      StepChallenges(Run(s, events[..n]), events[n]);
    }
  }

  lemma {:induction false} RunSplit(s: State, a: seq<Event>, b: seq<Event>)
    ensures Run(s, a + b) == Run(Run(s, a), b)
    decreases |b|
  {
    if b == [] {
      assert a + b == a;
    } else {
      RunSplit(s, a, b[..|b| - 1]);
      assert (a + b)[..|a + b| - 1] == a + b[..|b| - 1];
    }
  }

  // A committed proof spends its nonce.
  lemma ProvesSpends(s: State, past: seq<Event>, e: Event)
    requires NonceInv(s, past) && Proves(s, e)
    ensures e.header.Some? && Issued(past, e.header.value.nonce) && Spent(Step(s, e), e.header.value.nonce)
  {
    hide Step, BatchResult, Issued;
    StepChallenges(s, e);
  }

  lemma UnspentProves(s: State, e: Event)
    requires Proves(s, e)
    ensures e.header.Some? && !Spent(s, e.header.value.nonce)
  {
    hide BatchResult;
  }

  // A nonce issued in one part of a run is not issued in a later part.
  lemma IssuedBefore(events: seq<Event>, i: nat, j: nat, nonce: string)
    requires DistinctNonces(events) && i <= j <= |events| && Issued(events[..i], nonce)
    ensures !Issued(events[i..j], nonce)
  {
    var k :| 0 <= k < i && events[..i][k].Issue? && events[..i][k].nonce == nonce;
    assert forall m :: 0 <= m < |events[i..j]| ==> events[i..j][m] == events[i + m];
  }

  // In every run whose nonces are distinct, no two committed batches hold a proof for the same nonce.
  lemma OneProofPerChallenge(epoch: string, events: seq<Event>, i: nat, j: nat)
    requires DistinctNonces(events) && i < j < |events|
    requires Proves(Run(Start(epoch), events[..i]), events[i])
    requires Proves(Run(Start(epoch), events[..j]), events[j])
    ensures events[i].header.value.nonce != events[j].header.value.nonce
  {
    var s, e := Run(Start(epoch), events[..i]), events[i];
    UnspentProves(Run(Start(epoch), events[..j]), events[j]);
    RunNonces(epoch, events[..i]);
    ProvesSpends(s, events[..i], e);
    hide Step, Proves, Spent, Issued, NonceInv, DistinctNonces;
    var nonce := e.header.value.nonce;
    IssuedMore(events[..i + 1], i);
    assert events[..i + 1][..i] == events[..i];
    IssuedBefore(events, i + 1, j, nonce);
    assert Run(Start(epoch), events[..i + 1]) == Step(s, e);
    assert events[..j] == events[..i + 1] + events[i + 1..j];
    RunSplit(Start(epoch), events[..i + 1], events[i + 1..j]);
    SpentStays(Step(s, e), events[i + 1..j], nonce);
  }

  // Events that neither replace nor answer the agent's challenge.
  ghost predicate Leaves(events: seq<Event>, agent: string) {
    forall i :: 0 <= i < |events| ==> !events[i].Restart? && events[i].agent != agent
  }

  lemma {:induction false} ChallengeWaits(s: State, events: seq<Event>, agent: string)
    requires agent in s.challenges && Leaves(events, agent)
    ensures var t := Run(s, events); agent in t.challenges && t.challenges[agent] == s.challenges[agent] && t.epoch == s.epoch
    decreases |events|
  {
    hide Step, Proves;
    if events != [] {
      var n := |events| - 1;
      ChallengeWaits(s, events[..n], agent);
      StepChallenges(Run(s, events[..n]), events[n]);
      StepExtends(Run(s, events[..n]), events[n]);
    }
  }

  // An issued challenge is honoured exactly for its nonce and exactly for fifteen seconds, whatever other agents do.
  lemma ChallengeHonoured(s: State, agent: string, nonce: string, issued: int, others: seq<Event>, h: Header, now: int)
    requires Leaves(others, agent)
    ensures var t := Run(Step(s, Issue(issued, agent, nonce, Some(issued))), others);
      ProofFor(t, agent, Some(h), Some(now)).Some? <==> h.nonce == nonce && issued <= now <= issued + CHALLENGE_NS
  {
    ChallengeWaits(Step(s, Issue(issued, agent, nonce, Some(issued))), others, agent);
  }

  // ---- which records get an age ----

  // The age bound of a capture sent at sendMs, when the challenge took so long.
  function Bound(captureMs: nat, sendMs: nat, roundTrip: int): int { sendMs - captureMs + RoundedUpMs(roundTrip) + CLOCK_GUARD_MS }

  // The batch answers the agent's open challenge in time.
  predicate InTime(s: State, e: Event)
    requires e.Batch? && e.header.Some? && e.clock.Some?
  {
    && e.agent in s.challenges
    && var c := s.challenges[e.agent];
       !c.consumed && c.epoch == s.epoch && c.nonce == e.header.value.nonce && 0 <= e.clock.value - c.issued <= CHALLENGE_NS
  }

  // The record belongs to the collector, boot and installation of the header, and was captured before it was sent.
  predicate Matches(r: Record, h: Header) {
    && r.scope == Scope(h.installation, Some(h.boot), Some(h.generation), h.collector)
    && r.capture.Some? && r.capture.value <= h.sendMs
  }

  // Record i is the first of its id, in the batch and in the tables.
  ghost predicate First(s: State, e: Event, i: nat)
    requires e.Batch?
  {
    && i < |e.records| && (e.agent, e.records[i].id) !in s.stored && (e.agent, e.records[i].id) !in s.ages
    && forall j :: 0 <= j < i ==> e.records[j].id != e.records[i].id
  }

  lemma {:induction false} StoredAge(s: State, agent: string, records: seq<Record>, proof: Option<Proof>, i: nat)
    requires i < |records| && StoreAll(s, agent, records, proof).Some? && Ages(records[i], proof)
    requires (agent, records[i].id) !in s.stored && (agent, records[i].id) !in s.ages
    requires forall j :: 0 <= j < i ==> records[j].id != records[i].id
    ensures var t := StoreAll(s, agent, records, proof).value; var key := (agent, records[i].id);
      key in t.ages && t.ages[key] == Age(s.epoch, proof.value.received, UpperBound(records[i], proof.value))
    decreases |records|
  {
    hide Ages, UpperBound;
    var next := StoreNext(s, agent, records[0], proof).value;
    if i == 0 {
      StoreExtends(next, agent, records[1..], proof);
    } else {
      StoredAge(next, agent, records[1..], proof, i - 1);
    }
  }

  // Some record of the list has this key and may be aged by the proof.
  ghost predicate Aged(agent: string, records: seq<Record>, proof: Option<Proof>, key: Key) {
    exists i :: 0 <= i < |records| && key == (agent, records[i].id) && Ages(records[i], proof)
  }

  lemma {:induction false} AgesOnly(s: State, agent: string, records: seq<Record>, proof: Option<Proof>, key: Key)
    requires StoreAll(s, agent, records, proof).Some? && key !in s.ages && key in StoreAll(s, agent, records, proof).value.ages
    ensures Aged(agent, records, proof, key)
    decreases |records|
  {
    hide Ages, UpperBound;
    var next := StoreNext(s, agent, records[0], proof).value;
    if key !in next.ages {
      AgesOnly(next, agent, records[1..], proof, key);
      var i :| 0 <= i < |records[1..]| && key == (agent, records[1..][i].id) && Ages(records[1..][i], proof);
      assert records[i + 1] == records[1..][i];
    }
  }

  // Nothing else gets an age: a new age means a batch of that agent that answered its challenge in time, with a
  // record of that id that matches its header.
  lemma AgedOnlyThen(s: State, e: Event, key: Key)
    requires key !in s.ages && key in Step(s, e).ages
    ensures e.Batch? && e.header.Some? && e.clock.Some? && InTime(s, e)
    ensures exists i :: (0 <= i < |e.records| && key == (e.agent, e.records[i].id) && Matches(e.records[i], e.header.value)
      && Bound(e.records[i].capture.value, e.header.value.sendMs, e.clock.value - s.challenges[e.agent].issued) <= MAX_U64)
  {
    hide StoreAll;
    if e.Batch? {
      var proof := ProofFor(s, e.agent, e.header, e.clock);
      AgesOnly(Opened(s, e.agent, proof), e.agent, e.records, proof, key);
      var i :| 0 <= i < |e.records| && key == (e.agent, e.records[i].id) && Ages(e.records[i], proof);
      assert Matches(e.records[i], e.header.value);
    }
  }

  // Records agree with what is stored and among themselves, and no new one forks its generation.
  ghost predicate Consistent(stored: map<Key, string>, agent: string, records: seq<Record>) {
    && (forall i :: 0 <= i < |records| && (agent, records[i].id) in stored ==> stored[(agent, records[i].id)] == records[i].digest)
    && (forall i, j :: 0 <= i < j < |records| && records[i].id == records[j].id ==> records[i].digest == records[j].digest)
    && (forall i :: 0 <= i < |records| && (agent, records[i].id) !in stored && IsFirst(records, i) ==> !records[i].forks)
  }

  ghost predicate IsFirst(records: seq<Record>, i: nat)
    requires i < |records|
  {
    forall j :: 0 <= j < i ==> records[j].id != records[i].id
  }

  lemma ConsistentTail(stored: map<Key, string>, agent: string, records: seq<Record>)
    requires records != []
    ensures var r := records[0]; var key := (agent, r.id);
      Consistent(stored, agent, records) <==>
        && (key in stored ==> stored[key] == r.digest) && (key !in stored ==> !r.forks)
        && Consistent(stored[key := r.digest], agent, records[1..])
  {
    var r, tail := records[0], records[1..];
    var key := (agent, r.id);
    var after := stored[key := r.digest];
    assert forall i :: 0 <= i < |tail| ==> tail[i] == records[i + 1];
    assert forall i :: 0 <= i < |tail| && tail[i].id != r.id ==> (IsFirst(tail, i) <==> IsFirst(records, i + 1));
    if Consistent(stored, agent, records) {
      assert IsFirst(records, 0);
      forall i | 0 <= i < |tail| && (agent, tail[i].id) in after ensures after[(agent, tail[i].id)] == tail[i].digest {
        assert records[i + 1] == tail[i];
      }
    }
    if key in stored && stored[key] != r.digest { assert (agent, records[0].id) in stored; }
    if Consistent(after, agent, tail) && (key in stored ==> stored[key] == r.digest) && (key !in stored ==> !r.forks) {
      TailConsistent(stored, agent, records);
    }
  }

  lemma TailConsistent(stored: map<Key, string>, agent: string, records: seq<Record>)
    requires records != []
    requires var r := records[0]; var key := (agent, r.id);
      && (key in stored ==> stored[key] == r.digest) && (key !in stored ==> !r.forks)
      && Consistent(stored[key := r.digest], agent, records[1..])
    ensures Consistent(stored, agent, records)
  {
    var r, tail := records[0], records[1..];
    var after := stored[(agent, r.id) := r.digest];
    forall i | 0 <= i < |records| && (agent, records[i].id) in stored ensures stored[(agent, records[i].id)] == records[i].digest {
      if i > 0 { assert tail[i - 1] == records[i] && (agent, tail[i - 1].id) in after; }
    }
    forall i, j | 0 <= i < j < |records| && records[i].id == records[j].id ensures records[i].digest == records[j].digest {
      assert tail[j - 1] == records[j];
      if i == 0 { assert (agent, tail[j - 1].id) in after; } else { assert tail[i - 1] == records[i]; }
    }
    forall i | 0 <= i < |records| && (agent, records[i].id) !in stored && IsFirst(records, i) ensures !records[i].forks {
      if i > 0 {
        assert tail[i - 1] == records[i] && records[0].id != records[i].id;
        assert forall j :: 0 <= j < i - 1 ==> tail[j] == records[j + 1];
        assert IsFirst(tail, i - 1);
      }
    }
  }

  lemma {:induction false} StoredExactly(s: State, agent: string, records: seq<Record>, proof: Option<Proof>)
    ensures StoreAll(s, agent, records, proof).Some? <==> Consistent(s.stored, agent, records)
    decreases |records|
  {
    hide Consistent, Ages, UpperBound;
    if records == [] {
      ConsistentNone(s.stored, agent);
    } else {
      var r := records[0];
      ConsistentTail(s.stored, agent, records);
      var next := StoreNext(s, agent, r, proof);
      if next.Some? {
        assert next.value.stored == s.stored[(agent, r.id) := r.digest];
        StoredExactly(next.value, agent, records[1..], proof);
      }
    }
  }

  lemma ConsistentNone(stored: map<Key, string>, agent: string)
    ensures Consistent(stored, agent, [])
  {
  }

  // A batch commits exactly when its records are consistent, whatever its challenge; otherwise nothing changes.
  lemma CommitExactly(s: State, e: Event)
    requires e.Batch?
    ensures BatchResult(s, e).Some? <==> Consistent(s.stored, e.agent, e.records)
    ensures !Consistent(s.stored, e.agent, e.records) ==> Step(s, e) == s
  {
    hide StoreAll, Consistent;
    var proof := ProofFor(s, e.agent, e.header, e.clock);
    StoredExactly(Opened(s, e.agent, proof), e.agent, e.records, proof);
  }

  // No age is reported without one, by another process, without a clock, or for a time before the receipt.
  lemma UnverifiedThen(s: State, key: Key, clock: Option<int>)
    requires key !in s.ages || s.ages[key].epoch != s.epoch || clock.None? || clock.value < s.ages[key].received
    ensures StatusOf(s, key, clock) == Unverified
  {
  }

  // A committed batch that answers its challenge in time gives every new matching record its age at once: from the
  // receipt on it is the send time less the capture time, the round trip, the guard, and the time since.
  lemma AgedAtOnce(s: State, e: Event, i: nat, now: int)
    requires e.Batch? && e.header.Some? && e.clock.Some? && InTime(s, e) && BatchResult(s, e).Some? && First(s, e, i)
    requires Matches(e.records[i], e.header.value) && e.clock.value <= now
    requires Bound(e.records[i].capture.value, e.header.value.sendMs, e.clock.value - s.challenges[e.agent].issued) <= MAX_U64
    ensures StatusOf(Step(s, e), (e.agent, e.records[i].id), Some(now)) ==
      Known(Bound(e.records[i].capture.value, e.header.value.sendMs, e.clock.value - s.challenges[e.agent].issued)
            + RoundedUpMs(now - e.clock.value))
  {
    hide StoreAll;
    var proof := ProofFor(s, e.agent, e.header, e.clock);
    StoredAge(Opened(s, e.agent, proof), e.agent, e.records, proof, i);
    StoreExtends(Opened(s, e.agent, proof), e.agent, e.records, proof);
  }

  // ---- the tables in place ----

  class Tables {
    const epoch: string
    var challenges: map<string, Challenge>
    var stored: map<Key, string>
    var ages: map<Key, Age>

    function S(): State
      reads this
    {
      State(epoch, challenges, stored, ages)
    }

    // A process starts over the tables that an earlier one left.
    constructor (earlier: State, epoch: string)
      ensures S() == Step(earlier, Restart(epoch))
    {
      this.epoch := epoch;
      challenges, stored, ages := earlier.challenges, earlier.stored, earlier.ages;
    }

    method IssueChallenge(agent: string, nonce: string, clock: Option<int>) returns (ok: bool)
      modifies `challenges
      ensures ok == clock.Some?
      ensures forall at :: S() == Step(old(S()), Issue(at, agent, nonce, clock))
    {
      if clock.None? { return false; }
      challenges := challenges[agent := Challenge(nonce, epoch, clock.value, false)];
      ok := true;
    }

    method Consume(agent: string, header: Option<Header>, clock: Option<int>) returns (proof: Option<Proof>)
      modifies `challenges
      ensures proof == ProofFor(old(S()), agent, header, clock)
      ensures S() == Opened(old(S()), agent, proof)
    {
      if header.None? { return None; }
      if clock.None? { return None; }
      var now, h := clock.value, header.value;
      if agent !in challenges { return None; }
      var row := challenges[agent];
      if row.consumed || row.epoch != epoch || row.nonce != h.nonce { return None; }
      var elapsed := now - row.issued;
      if !(0 <= elapsed <= CHALLENGE_NS) { return None; }
      challenges := challenges[agent := row.(consumed := true)];
      proof := Some(Proof(HeaderScope(h), h.sendMs, RoundedUpMs(elapsed), now));
    }

    method RecordAge(agent: string, r: Record, proof: Option<Proof>) returns (inserted: bool)
      modifies `ages
      ensures inserted == (Ages(r, proof) && (agent, r.id) !in old(ages))
      ensures ages == if inserted then old(ages)[(agent, r.id) := Age(epoch, proof.value.received, UpperBound(r, proof.value))]
                      else old(ages)
    {
      if proof.None? || r.capture.None? { return false; }
      if r.scope != proof.value.scope { return false; }
      var delta := proof.value.sendMs - r.capture.value;
      var upper := delta + proof.value.elapsedMs + CLOCK_GUARD_MS;
      if delta < 0 || upper > MAX_U64 { return false; }
      inserted := (agent, r.id) !in ages;
      if inserted { ages := ages[(agent, r.id) := Age(epoch, proof.value.received, upper)]; }
    }

    // One record of a batch, in place; inserted says whether it got an age.
    method StoreRecord(agent: string, r: Record, proof: Option<Proof>) returns (ok: bool, inserted: bool)
      requires AgesStored(S())
      modifies `stored, `ages
      ensures var next := StoreNext(old(S()), agent, r, proof); (ok <==> next.Some?) && (ok ==> S() == next.value)
      ensures ok ==> AgesStored(S()) && |ages| == |old(ages)| + if inserted then 1 else 0
    {
      if (agent, r.id) in stored { return stored[(agent, r.id)] == r.digest, false; }
      if r.forks { return false, false; }
      stored := stored[(agent, r.id) := r.digest];
      inserted := RecordAge(agent, r, proof);
      ok := true;
    }

    // One batch transaction: a collision or a fork restores the tables, the consumed challenge included.
    method Receive(agent: string, header: Option<Header>, records: seq<Record>, clock: Option<int>)
      returns (committed: bool, aged: nat)
      requires AgesStored(S())
      modifies this
      ensures AgesStored(S())
      ensures forall at, sent :: S() == Step(old(S()), Batch(at, sent, agent, header, records, clock))
      ensures committed == BatchResult(old(S()), Batch(0, 0, agent, header, records, clock)).Some?
      ensures committed ==> aged == |ages| - |old(ages)|
    {
      hide StoreNext, ProofFor;
      var before := S();
      var proof := Consume(agent, header, clock);
      ghost var begun := S();
      aged := 0;
      var i := 0;
      while i < |records|
        invariant 0 <= i <= |records| && epoch == before.epoch
        invariant StoreAll(begun, agent, records, proof) == StoreAll(S(), agent, records[i..], proof)
        invariant aged == |ages| - |before.ages| && AgesStored(S())
      {
        assert records[i..][1..] == records[i + 1..];
        var ok, inserted := StoreRecord(agent, records[i], proof);
        if !ok {
          challenges, stored, ages := before.challenges, before.stored, before.ages;
          return false, aged;
        }
        if inserted { aged := aged + 1; }
        i := i + 1;
      }
      committed := true;
    }

    method Report(agent: string, record: string, clock: Option<int>) returns (st: Status)
      ensures st == StatusOf(S(), (agent, record), clock)
      ensures Fresh(st) ==> (agent, record) in ages && ages[(agent, record)].epoch == epoch
    {
      if (agent, record) !in ages { return Unverified; }
      var row := ages[(agent, record)];
      if row.epoch != epoch { return Unverified; }
      if clock.None? { return Unverified; }
      var elapsed := clock.value - row.received;
      if elapsed < 0 { return Unverified; }
      st := Known(row.upper + RoundedUpMs(elapsed));
    }
  }
}
