// Generation-ordered state projection: manager/endpoint_state.py and the record loop of
// manager/routers/endpoint.py, for one agent.
module Projection {
  import opened Aggregates

  // An endpoint record. Generation and sequence are canonical decimal strings in the source, so
  // comparing them as strings for equality and as integers for order is comparing naturals.
  datatype Record = Record(
    id: string, installation: string, generation: Option<nat>, epoch: string, number: nat,
    category: string, kind: string, body: string)

  datatype Active = Active(installation: string, generation: nat, epoch: string)

  type Key = (string, string)

  datatype State = State(
    seen: map<string, Record>,
    generations: map<(string, nat), string>,
    active: Option<Active>,
    latest: map<Key, Record>)

  const EMPTY := State(map[], map[], None, map[])

  datatype Ordering = Unverified | InactiveInstallation | Superseded | Current

  // projection_status
  function StatusOf(row: Record, active: Option<Active>): Ordering {
    if row.generation.None? then Unverified
    else if active.None? || row.installation != active.value.installation then InactiveInstallation
    else if row.generation.value != active.value.generation || row.epoch != active.value.epoch then Superseded
    else Current
  }

  function KeyOf(r: Record): Key { (r.category, r.kind) }

  predicate Projects(r: Record) { r.kind == "health" || r.kind == "state" }

  // A generation that comes back with another epoch is a fork.
  predicate Forks(s: State, r: Record) {
    r.generation.Some? && (r.installation, r.generation.value) in s.generations
    && s.generations[(r.installation, r.generation.value)] != r.epoch
  }

  // The active stream after observe_generation.
  function ActiveAfter(active: Option<Active>, r: Record): Option<Active> {
    if r.generation.None? then active
    else if active.None? then Some(Active(r.installation, r.generation.value, r.epoch))
    else if active.value.installation == r.installation && r.generation.value > active.value.generation then
      Some(active.value.(generation := r.generation.value, epoch := r.epoch))
    else active
  }

  // Whether project_state replaces the projection of the record's category and kind.
  predicate Displaces(existing: Option<Record>, active: Option<Active>, r: Record) {
    && Projects(r)
    && if r.generation.None? then active.None? && !(existing.Some? && existing.value.generation.Some?)
       else
         && active.Some? && active.value.installation == r.installation
         && active.value.generation == r.generation.value
         && !(existing.Some? && existing.value.generation.Some? && !Later(r, existing.value))
  }

  // (generation, sequence) order between ordered records.
  predicate Later(r: Record, q: Record)
    requires r.generation.Some? && q.generation.Some?
  {
    r.generation.value > q.generation.value
    || (r.generation.value == q.generation.value && r.number > q.number)
  }

  function Lookup(latest: map<Key, Record>, k: Key): Option<Record> {
    if k in latest then Some(latest[k]) else None
  }

  // One record of a batch; None refuses the batch.
  function Step(s: State, r: Record): Option<State> {
    if r.id in s.seen then (if s.seen[r.id] == r then Some(s) else None)
    else if Forks(s, r) then None
    else
      var generations := if r.generation.Some? then s.generations[(r.installation, r.generation.value) := r.epoch]
                         else s.generations;
      var active := ActiveAfter(s.active, r);
      var latest := if Displaces(Lookup(s.latest, KeyOf(r)), active, r) then s.latest[KeyOf(r) := r] else s.latest;
      Some(State(s.seen[r.id := r], generations, active, latest))
  }

  function Feed(s: State, rs: seq<Record>): Option<State> {
    if rs == [] then Some(s)
    else
      var before := Feed(s, rs[..|rs| - 1]);
      if before.None? then None else Step(before.value, rs[|rs| - 1])
  }

  // ---- projections only move forward, whatever arrives ----

  // An ordered projection is only ever replaced by a later ordered one.
  ghost predicate Forward(a: map<Key, Record>, b: map<Key, Record>) {
    forall k :: k in a && a[k].generation.Some? ==>
      k in b && b[k].generation.Some? && (b[k] == a[k] || Later(b[k], a[k]))
  }

  lemma {:induction false} ProjectionsMoveForward(s: State, rs: seq<Record>)
    requires Feed(s, rs).Some?
    ensures Forward(s.latest, Feed(s, rs).value.latest)
  {
    if rs != [] {
      ProjectionsMoveForward(s, rs[..|rs| - 1]);
    }
  }

  // ---- convergence ----

  predicate Ordered(r: Record) { r.generation.Some? }

  // Projecting records of one generation, category and kind with one sequence.
  predicate SameSlot(r: Record, q: Record) {
    Ordered(r) && Projects(r) && r.generation == q.generation && KeyOf(r) == KeyOf(q) && r.number == q.number
  }

  // Record ids name one record, ordered records come from one installation, a generation has one
  // epoch, and two projecting records of one generation, category and kind have distinct sequences.
  ghost predicate Coherent(rs: seq<Record>, installation: string) {
    && (forall r, q :: r in rs && q in rs && r.id == q.id ==> r == q)
    && (forall r :: r in rs && Ordered(r) ==> r.installation == installation)
    && (forall r, q :: r in rs && q in rs && Ordered(r) && Ordered(q) && r.generation == q.generation ==> r.epoch == q.epoch)
    && (forall r, q :: r in rs && q in rs && SameSlot(r, q) ==> r == q)
  }

  // r is the highest-sequence projecting record of generation g, category and kind k.
  ghost predicate Best(rs: seq<Record>, g: nat, k: Key, r: Record) {
    && r in rs && Projects(r) && r.generation == Some(g) && KeyOf(r) == k
    && forall q :: q in rs && Projects(q) && q.generation == Some(g) && KeyOf(q) == k ==> q.number <= r.number
  }

  predicate IsCandidate(q: Record, g: nat, k: Key) {
    Projects(q) && q.generation == Some(g) && KeyOf(q) == k
  }

  ghost predicate HasCandidate(rs: seq<Record>, g: nat, k: Key) {
    exists q :: q in rs && IsCandidate(q, g, k)
  }

  // The active stream is the highest generation seen.
  ghost predicate ActiveRight(rs: seq<Record>, installation: string, active: Option<Active>) {
    if active.None? then forall r :: r in rs ==> !Ordered(r)
    else
      && active.value.installation == installation
      && (exists r :: r in rs && r.generation == Some(active.value.generation) && r.epoch == active.value.epoch)
      && forall r :: r in rs && Ordered(r) ==> r.generation.value <= active.value.generation
  }

  ghost predicate SeenRight(rs: seq<Record>, seen: map<string, Record>) {
    && (forall r :: r in rs ==> r.id in seen && seen[r.id] == r)
    && (forall id :: id in seen ==> seen[id] in rs && seen[id].id == id)
  }

  ghost predicate GenerationsRight(rs: seq<Record>, generations: map<(string, nat), string>) {
    forall i, g :: (i, g) in generations ==>
      exists r :: r in rs && r.installation == i && r.generation == Some(g) && r.epoch == generations[(i, g)]
  }

  ghost predicate LatestRight(rs: seq<Record>, latest: map<Key, Record>) {
    forall k :: k in latest ==> latest[k] in rs && Projects(latest[k]) && KeyOf(latest[k]) == k
  }

  // Where the active generation has a projecting record, the projection is the best one.
  ghost predicate BestRight(rs: seq<Record>, active: Option<Active>, latest: map<Key, Record>) {
    active.Some? ==> forall k :: HasCandidate(rs, active.value.generation, k) ==>
      k in latest && Best(rs, active.value.generation, k, latest[k])
  }

  // What the tables hold after the records rs.
  ghost predicate Reflects(rs: seq<Record>, installation: string, s: State) {
    && SeenRight(rs, s.seen)
    && GenerationsRight(rs, s.generations)
    && ActiveRight(rs, installation, s.active)
    && LatestRight(rs, s.latest)
    && BestRight(rs, s.active, s.latest)
  }

  lemma CoherentPrefix(rs: seq<Record>, n: nat, installation: string)
    requires Coherent(rs, installation) && n <= |rs|
    ensures Coherent(rs[..n], installation)
  {
    assert forall r :: r in rs[..n] ==> r in rs;
  }

  // A coherent record is never refused.
  lemma StepAccepts(rs: seq<Record>, installation: string, s: State, r: Record)
    requires SeenRight(rs, s.seen) && GenerationsRight(rs, s.generations) && Coherent(rs + [r], installation)
    ensures Step(s, r).Some?
  {
    assert r in rs + [r];
    assert forall q :: q in rs ==> q in rs + [r];
    if r.id in s.seen {
      assert s.seen[r.id] in rs;
    } else if r.generation.Some? && (r.installation, r.generation.value) in s.generations {
      var q :| q in rs && q.installation == r.installation && q.generation == Some(r.generation.value)
               && q.epoch == s.generations[(r.installation, r.generation.value)];
    }
  }

  // Two sequences with the same members reflect the same tables.
  lemma SameMembers(rs: seq<Record>, qs: seq<Record>, installation: string, s: State)
    requires forall r :: r in rs <==> r in qs
    requires Reflects(rs, installation, s)
    ensures Reflects(qs, installation, s)
  {
    assert GenerationsRight(qs, s.generations);
    if s.active.Some? {
      forall k | HasCandidate(qs, s.active.value.generation, k)
        ensures k in s.latest && Best(qs, s.active.value.generation, k, s.latest[k])
      {
        assert HasCandidate(rs, s.active.value.generation, k);
      }
    }
  }

  lemma ActiveStep(rs: seq<Record>, installation: string, active: Option<Active>, r: Record)
    requires ActiveRight(rs, installation, active) && (Ordered(r) ==> r.installation == installation)
    ensures ActiveRight(rs + [r], installation, ActiveAfter(active, r))
  {
    var more := rs + [r];
    assert forall q :: q in more <==> q in rs || q == r;
  }

  lemma GenerationsStep(rs: seq<Record>, s: State, r: Record)
    requires GenerationsRight(rs, s.generations) && r.id !in s.seen && !Forks(s, r)
    ensures GenerationsRight(rs + [r], Step(s, r).value.generations)
  {
    var more := rs + [r];
    assert forall q :: q in more <==> q in rs || q == r;
    var after := Step(s, r).value.generations;
    forall i, g | (i, g) in after
      ensures exists q :: q in more && q.installation == i && q.generation == Some(g) && q.epoch == after[(i, g)]
    {
      if r.generation == Some(g) && r.installation == i {
        assert r in more;
      } else {
        var q :| q in rs && q.installation == i && q.generation == Some(g) && q.epoch == s.generations[(i, g)];
        assert q in more;
      }
    }
  }

  // The projection of k stays the best record of the active generation.
  lemma BestStep(rs: seq<Record>, installation: string, s: State, r: Record, k: Key)
    requires Reflects(rs, installation, s) && r.id !in s.seen && (Ordered(r) ==> r.installation == installation)
    requires var active := ActiveAfter(s.active, r); active.Some? && HasCandidate(rs + [r], active.value.generation, k)
    ensures var active := ActiveAfter(s.active, r);
      var latest := if Displaces(Lookup(s.latest, KeyOf(r)), active, r) then s.latest[KeyOf(r) := r] else s.latest;
      k in latest && Best(rs + [r], active.value.generation, k, latest[k])
  {
    var active := ActiveAfter(s.active, r);
    var g := active.value.generation;
    var more := rs + [r];
    assert forall q :: q in more <==> q in rs || q == r;
    if s.active == None || g > s.active.value.generation {
      // Only r belongs to the new generation.
      assert forall q :: q in rs ==> q.generation != Some(g);
      assert IsCandidate(r, g, k);
      assert k in s.latest ==> s.latest[k] in rs;
    } else if HasCandidate(rs, g, k) {
      assert k in s.latest && Best(rs, g, k, s.latest[k]);
    } else {
      assert IsCandidate(r, g, k);
      assert k in s.latest ==> s.latest[k] in rs && !IsCandidate(s.latest[k], g, k);
    }
  }

  lemma StepReflects(rs: seq<Record>, installation: string, s: State, r: Record)
    requires Reflects(rs, installation, s) && Coherent(rs + [r], installation)
    ensures Step(s, r).Some? && Reflects(rs + [r], installation, Step(s, r).value)
  {
    StepAccepts(rs, installation, s, r);
    var more := rs + [r];
    assert r in more;
    assert forall q :: q in more <==> q in rs || q == r;
    if r.id in s.seen {
      SameMembers(rs, more, installation, s);
    } else {
      ActiveStep(rs, installation, s.active, r);
      GenerationsStep(rs, s, r);
      var active := ActiveAfter(s.active, r);
      if active.Some? {
        forall k | HasCandidate(more, active.value.generation, k)
          ensures k in Step(s, r).value.latest && Best(more, active.value.generation, k, Step(s, r).value.latest[k])
        {
          BestStep(rs, installation, s, r, k);
        }
      }
    }
  }

  // Coherent records are all accepted, in any order, and the tables reflect exactly their set.
  lemma {:induction false} FeedReflects(rs: seq<Record>, installation: string)
    requires Coherent(rs, installation)
    ensures Feed(EMPTY, rs).Some? && Reflects(rs, installation, Feed(EMPTY, rs).value)
  {
    if rs != [] {
      var less := rs[..|rs| - 1];
      CoherentPrefix(rs, |rs| - 1, installation);
      FeedReflects(less, installation);
      assert less + [rs[|rs| - 1]] == rs;
      StepReflects(less, installation, Feed(EMPTY, less).value, rs[|rs| - 1]);
    }
  }

  // The projections that are labelled "current".
  ghost function CurrentOf(s: State): map<Key, Record> {
    map k | k in s.latest && StatusOf(s.latest[k], s.active) == Current :: s.latest[k]
  }

  // A projection is current exactly when it is the best record of the highest generation.
  lemma CurrentIsBest(rs: seq<Record>, installation: string, s: State, k: Key)
    requires Coherent(rs, installation) && Reflects(rs, installation, s)
    ensures k in CurrentOf(s) <==> s.active.Some? && HasCandidate(rs, s.active.value.generation, k)
    ensures k in CurrentOf(s) ==> Best(rs, s.active.value.generation, k, CurrentOf(s)[k])
  {
    if s.active.Some? {
      var g := s.active.value.generation;
      if HasCandidate(rs, g, k) {
        var row := s.latest[k];
        var q :| q in rs && q.generation == Some(g) && q.epoch == s.active.value.epoch;
        assert row in rs && row.epoch == q.epoch;
      }
      if k in CurrentOf(s) {
        assert s.latest[k] in rs && IsCandidate(s.latest[k], g, k);
      }
    }
  }

  lemma ActiveAgrees(rs: seq<Record>, qs: seq<Record>, installation: string, s: State, t: State)
    requires Coherent(rs, installation)
    requires forall r :: Ordered(r) ==> (r in rs <==> r in qs)
    requires Reflects(rs, installation, s) && Reflects(qs, installation, t)
    ensures s.active == t.active
  {
    hide SeenRight, GenerationsRight, LatestRight, BestRight;
    var a, b := s.active, t.active;
    if a.Some? {
      var r :| r in rs && r.generation == Some(a.value.generation) && r.epoch == a.value.epoch;
      assert Ordered(r) && r in qs;
    }
    if b.Some? {
      var q :| q in qs && q.generation == Some(b.value.generation) && q.epoch == b.value.epoch;
      assert Ordered(q) && q in rs;
    }
  }

  // Convergence: two runs that received the same ordered records, in any order, any number of times
  // and with any unordered records in between, agree on the active generation and epoch and on
  // every projection labelled "current".
  lemma ArrivalOrderIrrelevant(rs: seq<Record>, qs: seq<Record>, installation: string)
    requires Coherent(rs, installation) && Coherent(qs, installation)
    requires forall r :: Ordered(r) ==> (r in rs <==> r in qs)
    ensures Feed(EMPTY, rs).Some? && Feed(EMPTY, qs).Some?
    ensures var s, t := Feed(EMPTY, rs).value, Feed(EMPTY, qs).value;
      s.active == t.active && CurrentOf(s) == CurrentOf(t)
  {
    hide Feed, Reflects, Coherent, CurrentOf;
    FeedReflects(rs, installation);
    FeedReflects(qs, installation);
    var s, t := Feed(EMPTY, rs).value, Feed(EMPTY, qs).value;
    ActiveAgrees(rs, qs, installation, s, t);
    forall k ensures k in CurrentOf(s) <==> k in CurrentOf(t)
      ensures k in CurrentOf(s) ==> CurrentOf(s)[k] == CurrentOf(t)[k]
    {
      CurrentAgrees(rs, qs, installation, s, t, k);
    }
  }

  lemma CurrentAgrees(rs: seq<Record>, qs: seq<Record>, installation: string, s: State, t: State, k: Key)
    requires Coherent(rs, installation) && Coherent(qs, installation)
    requires forall r :: Ordered(r) ==> (r in rs <==> r in qs)
    requires Reflects(rs, installation, s) && Reflects(qs, installation, t) && s.active == t.active
    ensures k in CurrentOf(s) <==> k in CurrentOf(t)
    ensures k in CurrentOf(s) ==> CurrentOf(s)[k] == CurrentOf(t)[k]
  {
    hide Reflects, CurrentOf;
    CurrentIsBest(rs, installation, s, k);
    CurrentIsBest(qs, installation, t, k);
    if s.active.Some? {
      var g := s.active.value.generation;
      assert HasCandidate(rs, g, k) <==> HasCandidate(qs, g, k) by {
        assert forall r :: IsCandidate(r, g, k) ==> (r in rs <==> r in qs);
      }
      if k in CurrentOf(s) {
        var a, b := CurrentOf(s)[k], CurrentOf(t)[k];
        assert b in rs && SameSlot(a, b);
      }
    }
  }

  // ---- exactly which records are accepted ----

  // Ids name one record, and a generation of an installation has one epoch.
  ghost predicate Unforked(rs: seq<Record>) {
    && (forall r, q :: r in rs && q in rs && r.id == q.id ==> r == q)
    && (forall r, q :: r in rs && q in rs && SameGeneration(r, q) ==> r.epoch == q.epoch)
  }

  predicate SameGeneration(r: Record, q: Record) {
    Ordered(r) && r.generation == q.generation && r.installation == q.installation
  }

  // Every generation that was seen is filed, with its epoch.
  ghost predicate Filed(rs: seq<Record>, generations: map<(string, nat), string>) {
    forall r :: r in rs && Ordered(r) ==>
      (r.installation, r.generation.value) in generations && generations[(r.installation, r.generation.value)] == r.epoch
  }

  ghost predicate Knows(rs: seq<Record>, s: State) {
    SeenRight(rs, s.seen) && GenerationsRight(rs, s.generations) && Filed(rs, s.generations)
  }

  lemma ForksExactly(rs: seq<Record>, s: State, r: Record)
    requires Knows(rs, s)
    ensures Forks(s, r) <==> exists q :: q in rs && SameGeneration(r, q) && q.epoch != r.epoch
  {
    if Forks(s, r) {
      var q :| q in rs && q.installation == r.installation && q.generation == Some(r.generation.value)
               && q.epoch == s.generations[(r.installation, r.generation.value)];
      assert SameGeneration(r, q);
    }
  }

  lemma StepUnforked(rs: seq<Record>, s: State, r: Record)
    requires Knows(rs, s) && Unforked(rs)
    ensures Step(s, r).Some? <==> Unforked(rs + [r])
  {
    var more := rs + [r];
    assert forall q :: q in more <==> q in rs || q == r;
    ForksExactly(rs, s, r);
    hide Forks, GenerationsRight, Filed;
    if r.id in s.seen { assert s.seen[r.id] in more && r in more; }
  }

  lemma StepKnows(rs: seq<Record>, s: State, r: Record)
    requires Knows(rs, s) && Step(s, r).Some?
    ensures Knows(rs + [r], Step(s, r).value)
  {
    if r.id in s.seen {
      KnownAlready(rs, s, r);
    } else {
      GenerationsStep(rs, s, r);
      assert forall q :: q in rs + [r] <==> q in rs || q == r;
      hide GenerationsRight;
    }
  }

  lemma KnownAlready(rs: seq<Record>, s: State, r: Record)
    requires Knows(rs, s) && r.id in s.seen && s.seen[r.id] == r
    ensures Knows(rs + [r], s)
  {
    var more := rs + [r];
    assert forall q :: q in more <==> q in rs;
    assert GenerationsRight(more, s.generations);
  }

  lemma {:induction false} FeedKnows(rs: seq<Record>)
    ensures Feed(EMPTY, rs).Some? <==> Unforked(rs)
    ensures Feed(EMPTY, rs).Some? ==> Knows(rs, Feed(EMPTY, rs).value)
  {
    hide Step, Knows, Unforked;
    if rs == [] {
      NothingKnown();
    } else {
      var n := |rs| - 1;
      FeedKnows(rs[..n]);
      assert rs == rs[..n] + [rs[n]];
      UnforkedPrefix(rs, n);
      if Feed(EMPTY, rs[..n]).Some? {
        var s := Feed(EMPTY, rs[..n]).value;
        StepUnforked(rs[..n], s, rs[n]);
        if Step(s, rs[n]).Some? { StepKnows(rs[..n], s, rs[n]); }
      }
    }
  }

  lemma NothingKnown()
    ensures Knows([], EMPTY) && Unforked([]) && ActiveHighest([], None)
  {
  }

  lemma UnforkedPrefix(rs: seq<Record>, n: nat)
    requires n <= |rs|
    ensures Unforked(rs) ==> Unforked(rs[..n])
  {
    assert forall r :: r in rs[..n] ==> r in rs;
  }

  // Records are all accepted, in whatever order and number, exactly when no id names two records and no generation
  // of an installation has two epochs.
  lemma AcceptedExactly(rs: seq<Record>)
    ensures Feed(EMPTY, rs).Some? <==> Unforked(rs)
  {
    FeedKnows(rs);
  }

  // ---- the active stream, with any number of installations ----

  // The installation of the first ordered record stays; its highest generation is active.
  ghost predicate ActiveHighest(rs: seq<Record>, active: Option<Active>) {
    if active.None? then forall r :: r in rs ==> !Ordered(r)
    else
      && FirstOrdered(rs, active.value.installation)
      && (exists r :: r in rs && r.installation == active.value.installation
                      && r.generation == Some(active.value.generation) && r.epoch == active.value.epoch)
      && forall r :: r in rs && Ordered(r) && r.installation == active.value.installation ==> r.generation.value <= active.value.generation
  }

  ghost predicate FirstOrdered(rs: seq<Record>, installation: string) {
    exists i :: 0 <= i < |rs| && Ordered(rs[i]) && rs[i].installation == installation && forall j :: 0 <= j < i ==> !Ordered(rs[j])
  }

  lemma {:induction false} ActiveIsHighest(rs: seq<Record>)
    requires Feed(EMPTY, rs).Some?
    ensures ActiveHighest(rs, Feed(EMPTY, rs).value.active)
  {
    hide ActiveHighest, Step;
    if rs == [] {
      NothingKnown();
    } else {
      var n := |rs| - 1;
      ActiveIsHighest(rs[..n]);
      assert rs == rs[..n] + [rs[n]];
      var s := Feed(EMPTY, rs[..n]).value;
      FeedKnows(rs[..n]);
      StepActive(rs[..n], s, rs[n]);
      HighestNext(rs[..n], s.active, rs[n]);
    }
  }

  // A record that was stored before changes nothing, and observing it again would not either.
  lemma StepActive(rs: seq<Record>, s: State, r: Record)
    requires Step(s, r).Some? && Knows(rs, s) && ActiveHighest(rs, s.active)
    ensures Step(s, r).value.active == ActiveAfter(s.active, r)
  {
    if r.id in s.seen { assert r in rs; }
  }

  lemma HighestNext(rs: seq<Record>, active: Option<Active>, r: Record)
    requires ActiveHighest(rs, active)
    ensures ActiveHighest(rs + [r], ActiveAfter(active, r))
  {
    var more := rs + [r];
    var after := ActiveAfter(active, r);
    assert forall q :: q in more <==> q in rs || q == r;
    if after.Some? {
      FirstNext(rs, active, r);
      if active.Some? && after == active {
        var q :| q in rs && q.installation == active.value.installation
                 && q.generation == Some(active.value.generation) && q.epoch == active.value.epoch;
        assert q in more;
      } else {
        assert r in more && r.generation == Some(after.value.generation);
      }
    }
  }

  lemma FirstNext(rs: seq<Record>, active: Option<Active>, r: Record)
    requires if active.None? then forall q :: q in rs ==> !Ordered(q) else FirstOrdered(rs, active.value.installation)
    ensures var after := ActiveAfter(active, r); after.Some? ==> FirstOrdered(rs + [r], after.value.installation)
  {
    var more := rs + [r];
    if active.Some? {
      var i :| 0 <= i < |rs| && Ordered(rs[i]) && rs[i].installation == active.value.installation && forall j :: 0 <= j < i ==> !Ordered(rs[j]);
      assert more[i] == rs[i] && forall j :: 0 <= j < i ==> more[j] == rs[j];
    } else if Ordered(r) {
      assert more[|rs|] == r && forall j :: 0 <= j < |rs| ==> more[j] == rs[j] && rs[j] in rs;
    }
  }

  // An unordered projecting record is shown exactly while no ordered record ever arrived; then the last one is.
  lemma UnorderedExactly(rs: seq<Record>, r: Record)
    requires Unforked(rs + [r]) && !Ordered(r) && Projects(r) && r !in rs
    ensures Feed(EMPTY, rs).Some? && Feed(EMPTY, rs + [r]).Some?
    ensures var before, after := Feed(EMPTY, rs).value.latest, Feed(EMPTY, rs + [r]).value.latest;
      after == if exists q :: q in rs && Ordered(q) then before else before[KeyOf(r) := r]
  {
    hide ActiveHighest, Knows, Unforked;
    assert (rs + [r])[..|rs|] == rs;
    UnforkedPrefix(rs + [r], |rs|);
    FeedKnows(rs);
    FeedKnows(rs + [r]);
    ActiveIsHighest(rs);
    var s := Feed(EMPTY, rs).value;
    OrderedSeen(rs, s.active);
    NotSeen(rs, s, r);
    if s.active.None? { NoOrderedLatest(rs); }
  }

  lemma OrderedSeen(rs: seq<Record>, active: Option<Active>)
    requires ActiveHighest(rs, active)
    ensures active.Some? <==> exists q :: q in rs && Ordered(q)
  {
    if active.Some? { var i :| 0 <= i < |rs| && Ordered(rs[i]); assert rs[i] in rs; }
  }

  lemma NotSeen(rs: seq<Record>, s: State, r: Record)
    requires Knows(rs, s) && Unforked(rs + [r]) && r !in rs
    ensures r.id !in s.seen
  {
    assert r in rs + [r] && forall q :: q in rs ==> q in rs + [r];
  }

  lemma {:induction false} NoOrderedLatest(rs: seq<Record>)
    requires Feed(EMPTY, rs).Some?
    ensures Feed(EMPTY, rs).value.active.None? ==> forall k :: k in Feed(EMPTY, rs).value.latest ==> !Ordered(Feed(EMPTY, rs).value.latest[k])
  {
    if rs != [] { NoOrderedLatest(rs[..|rs| - 1]); }
  }

  // What the labels say of a shown projection: unordered; of another installation than the active one; of an older
  // generation of it; or of the active generation.
  lemma LabelsExact(rs: seq<Record>, k: Key)
    requires Unforked(rs)
    ensures Feed(EMPTY, rs).Some?
    ensures var s := Feed(EMPTY, rs).value;
      k in s.latest ==>
        var row := s.latest[k]; var shown := StatusOf(row, s.active);
        && (shown == Unverified <==> !Ordered(row))
        && (Ordered(row) ==> s.active.Some?)
        && (Ordered(row) && row.installation != s.active.value.installation ==> shown == InactiveInstallation)
        && (Ordered(row) && row.installation == s.active.value.installation ==>
              shown == if row.generation.value < s.active.value.generation then Superseded else Current)
  {
    FeedKnows(rs);
    ActiveIsHighest(rs);
    ShownSeen(rs);
    var s := Feed(EMPTY, rs).value;
    if k in s.latest && Ordered(s.latest[k]) {
      var row := s.latest[k];
      OrderedSeen(rs, s.active);
      if row.installation == s.active.value.installation {
        var q :| q in rs && q.installation == s.active.value.installation
                 && q.generation == Some(s.active.value.generation) && q.epoch == s.active.value.epoch;
        assert SameGeneration(row, q) <==> row.generation == q.generation;
      }
    }
  }

  lemma {:induction false} ShownSeen(rs: seq<Record>)
    requires Feed(EMPTY, rs).Some?
    ensures forall k :: k in Feed(EMPTY, rs).value.latest ==> Feed(EMPTY, rs).value.latest[k] in rs
  {
    if rs != [] {
      ShownSeen(rs[..|rs| - 1]);
      assert rs == rs[..|rs| - 1] + [rs[|rs| - 1]];
    }
  }

  // Health and state records are shown, and no other kind ever is.
  lemma ShownKinds(rs: seq<Record>, r: Record)
    ensures Feed(EMPTY, [r]).Some?
    ensures KeyOf(r) in Feed(EMPTY, [r]).value.latest <==> r.kind == "health" || r.kind == "state"
    ensures Feed(EMPTY, rs).Some? ==> forall k :: k in Feed(EMPTY, rs).value.latest ==> k.1 == "health" || k.1 == "state"
  {
    assert [r][..0] == [];
    assert Feed(EMPTY, []) == Some(EMPTY);
    if Feed(EMPTY, rs).Some? { OnlyShown(rs); }
  }

  lemma {:induction false} OnlyShown(rs: seq<Record>)
    requires Feed(EMPTY, rs).Some?
    ensures forall k :: k in Feed(EMPTY, rs).value.latest ==> k.1 == "health" || k.1 == "state"
  {
    if rs != [] { OnlyShown(rs[..|rs| - 1]); }
  }

  // A record of another installation changes neither the active stream nor any projection.
  lemma ForeignIgnored(s: State, r: Record)
    requires Step(s, r).Some? && Ordered(r) && s.active.Some? && r.installation != s.active.value.installation
    ensures Step(s, r).value.active == s.active && Step(s, r).value.latest == s.latest
  {
  }

  // The tables in place.
  class Endpoint {
    var seen: map<string, Record>
    var generations: map<(string, nat), string>
    var active: Option<Active>
    var latest: map<Key, Record>

    ghost function Tables(): State
      reads this
    {
      State(seen, generations, active, latest)
    }

    constructor ()
      ensures Tables() == EMPTY
    {
      seen, generations, active, latest := map[], map[], None, map[];
    }

    // observe_generation; false reports a fork.
    method Observe(r: Record) returns (ok: bool)
      modifies `generations, `active
      ensures ok <==> !Forks(old(Tables()), r)
      ensures !ok ==> Tables() == old(Tables())
      ensures ok ==> active == ActiveAfter(old(active), r)
      ensures ok ==>
        generations == if r.generation.None? then old(generations)
                       else old(generations)[(r.installation, r.generation.value) := r.epoch]
    {
      if r.generation.None? { return true; }
      var slot := (r.installation, r.generation.value);
      if slot in generations && generations[slot] != r.epoch { return false; }
      if slot !in generations {
        generations := generations[slot := r.epoch];
      }
      assert generations == old(generations)[slot := r.epoch];
      if active.None? {
        active := Some(Active(r.installation, r.generation.value, r.epoch));
      } else if active.value.installation == r.installation && r.generation.value > active.value.generation {
        active := Some(active.value.(generation := r.generation.value, epoch := r.epoch));
      }
      ok := true;
    }

    // project_state
    method Project(r: Record)
      modifies `latest
      ensures latest == if Displaces(Lookup(old(latest), KeyOf(r)), active, r) then old(latest)[KeyOf(r) := r]
                        else old(latest)
    {
      if r.kind != "health" && r.kind != "state" { return; }
      var k := KeyOf(r);
      if r.generation.None? {
        if active.Some? || (k in latest && latest[k].generation.Some?) { return; }
      } else {
        if active.None? || active.value.installation != r.installation
           || active.value.generation != r.generation.value { return; }
        if k in latest && latest[k].generation.Some? && !Later(r, latest[k]) { return; }
      }
      latest := latest[k := r];
    }

    // One record of a batch; on false the caller rolls the batch back.
    method Receive(r: Record) returns (ok: bool)
      modifies this
      ensures ok <==> Step(old(Tables()), r).Some?
      ensures ok ==> Tables() == Step(old(Tables()), r).value
      ensures !ok ==> Tables() == old(Tables())
    {
      if r.id in seen { return seen[r.id] == r; }
      ok := Observe(r);
      if !ok { return; }
      seen := seen[r.id := r];
      Project(r);
    }
  }
}
