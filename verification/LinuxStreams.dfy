// Linux record storage and contiguous-stream accounting: manager/linux_endpoint_store.py and the line
// accounting of manager/routers/linux_endpoint.py, for one agent (every query filters by agent).
module LinuxStreams {
  import opened Aggregates

  const MAX_MISSING_RANGES: nat := 16

  datatype Stream = Stream(sensorId: string, bootId: string)

  // A validated record. The stored digest is SHA-256 of the raw line, so equal digests are equal records.
  datatype Record = Record(id: string, stream: Stream, number: int, hostId: string, body: string)

  type Records = map<string, Record>

  // ---- recomputation from the stored set ----

  function Numbers(m: Records, st: Stream): set<int> {
    set id | id in m && m[id].stream == st :: m[id].number
  }

  ghost predicate IsLeast(s: set<int>, x: int) { x in s && forall y :: y in s ==> x <= y }
  ghost predicate IsGreatest(s: set<int>, x: int) { x in s && forall y :: y in s ==> y <= x }

  // acked ends the longest gap-free run that starts at first.
  ghost predicate RunEndsAt(s: set<int>, first: int, acked: int) {
    && first - 1 <= acked
    && (forall x :: first <= x <= acked ==> x in s)
    && acked + 1 !in s
  }

  datatype Row = Row(first: int, highest: int, acked: int)

  ghost predicate Accounts(s: set<int>, row: Row) {
    IsLeast(s, row.first) && IsGreatest(s, row.highest) && RunEndsAt(s, row.first, row.acked)
  }

  type Range = (int, int)

  // ranges are maximal gaps of s above acked, in order and apart, ...
  ghost predicate Gaps(s: set<int>, acked: int, ranges: seq<Range>) {
    && (forall i :: 0 <= i < |ranges| ==>
          && acked < ranges[i].0 <= ranges[i].1
          && (forall x :: ranges[i].0 <= x <= ranges[i].1 ==> x !in s)
          && (ranges[i].0 - 1 == acked || ranges[i].0 - 1 in s)
          && ranges[i].1 + 1 in s)
    && (forall i, j :: 0 <= i < j < |ranges| ==> ranges[i].1 < ranges[j].0)
  }

  ghost predicate InSome(x: int, ranges: seq<Range>) {
    exists i :: 0 <= i < |ranges| && ranges[i].0 <= x <= ranges[i].1
  }

  // ... all of them, or the first 16.
  ghost predicate Missing(s: set<int>, acked: int, ranges: seq<Range>) {
    && Gaps(s, acked, ranges)
    && |ranges| <= MAX_MISSING_RANGES
    && (|ranges| < MAX_MISSING_RANGES ==>
          forall x, h :: acked < x <= h && h in s && x !in s ==> InSome(x, ranges))
    && (|ranges| == MAX_MISSING_RANGES ==>
          forall x :: acked < x <= ranges[|ranges| - 1].1 && x !in s ==> InSome(x, ranges))
  }

  datatype Summary = Summary(stream: Stream, acked: int, highest: int, missing: seq<Range>)

  // The summary of a stream is what its stored set says.
  ghost predicate Describes(s: set<int>, v: Summary) {
    && IsGreatest(s, v.highest)
    && (exists first :: IsLeast(s, first) && RunEndsAt(s, first, v.acked))
    && Missing(s, v.acked, v.missing)
  }

  lemma RunEndUnique(s: set<int>, first: int, a: int, b: int)
    requires RunEndsAt(s, first, a) && RunEndsAt(s, first, b)
    ensures a == b
  {
    assert a + 1 !in s && b + 1 !in s;
  }

  // A range of p that starts where all earlier ranges agree cannot start later than the one of q.
  lemma StartsNoLater(s: set<int>, acked: int, p: seq<Range>, q: seq<Range>, i: nat)
    requires Missing(s, acked, p) && Missing(s, acked, q)
    requires i < |p| && i < |q| && forall j :: 0 <= j < i ==> p[j] == q[j]
    ensures p[i].0 <= q[i].0
  {
    if q[i].0 < p[i].0 {
      var x := q[i].0;
      assert x !in s && q[i].1 + 1 in s;
      forall j | 0 <= j < |p| ensures !(p[j].0 <= x <= p[j].1) {
        if j < i { assert q[j].1 < q[i].0; } else { assert j == i || p[i].1 < p[j].0; }
      }
    }
  }

  lemma EndsNoLater(s: set<int>, acked: int, p: seq<Range>, q: seq<Range>, i: nat)
    requires Missing(s, acked, p) && Missing(s, acked, q)
    requires i < |p| && i < |q| && p[i].0 == q[i].0
    ensures p[i].1 <= q[i].1
  {
    var next := q[i].1 + 1;
    assert next in s;
  }

  lemma {:induction false} RangesAgree(s: set<int>, acked: int, p: seq<Range>, q: seq<Range>, n: nat)
    requires Missing(s, acked, p) && Missing(s, acked, q) && n <= |p| && n <= |q|
    ensures forall j :: 0 <= j < n ==> p[j] == q[j]
  {
    hide Missing;
    if n > 0 {
      RangesAgree(s, acked, p, q, n - 1);
      StartsNoLater(s, acked, p, q, n - 1);
      StartsNoLater(s, acked, q, p, n - 1);
      EndsNoLater(s, acked, p, q, n - 1);
      EndsNoLater(s, acked, q, p, n - 1);
    }
  }

  lemma NoShorter(s: set<int>, acked: int, p: seq<Range>, q: seq<Range>)
    requires Missing(s, acked, p) && Missing(s, acked, q)
    requires forall j :: 0 <= j < |p| && j < |q| ==> p[j] == q[j]
    ensures |q| <= |p|
  {
    hide Missing, InSome;
    if |p| < |q| {
      GapAfter(s, acked, q, |p|);
      var r := q[|p|];
      GapReported(s, acked, p, r.0, r.1 + 1);
      Beyond(p, r.0);
    }
  }

  lemma GapAfter(s: set<int>, acked: int, q: seq<Range>, n: nat)
    requires Missing(s, acked, q) && n < |q|
    ensures acked < q[n].0 <= q[n].1 + 1 && q[n].0 !in s && q[n].1 + 1 in s && n < MAX_MISSING_RANGES
    ensures forall j :: 0 <= j < n ==> q[j].1 < q[n].0
  {
  }

  lemma GapReported(s: set<int>, acked: int, p: seq<Range>, x: int, h: int)
    requires Missing(s, acked, p) && |p| < MAX_MISSING_RANGES && acked < x <= h && h in s && x !in s
    ensures InSome(x, p)
  {
  }

  lemma Beyond(p: seq<Range>, x: int)
    requires forall j :: 0 <= j < |p| ==> p[j].1 < x
    ensures !InSome(x, p)
  {
  }

  // A stored set has one summary.
  lemma SummaryUnique(s: set<int>, v: Summary, w: Summary)
    requires Describes(s, v) && Describes(s, w) && v.stream == w.stream
    ensures v == w
  {
    var f :| IsLeast(s, f) && RunEndsAt(s, f, v.acked);
    var g :| IsLeast(s, g) && RunEndsAt(s, g, w.acked);
    RunEndUnique(s, f, v.acked, w.acked);
    var n := if |v.missing| < |w.missing| then |v.missing| else |w.missing|;
    RangesAgree(s, v.acked, v.missing, w.missing, n);
    NoShorter(s, v.acked, v.missing, w.missing);
    NoShorter(s, v.acked, w.missing, v.missing);
  }

  // ---- storing records ----

  datatype Verdict = Accepted | Duplicate | Conflicting

  // A record whose id exists is a duplicate or a conflict; an occupied slot is a conflict.
  function Classify(m: Records, r: Record): Verdict {
    if r.id in m then (if m[r.id] == r then Duplicate else Conflicting)
    else if r.number in Numbers(m, r.stream) then Conflicting
    else Accepted
  }

  function Put(m: Records, r: Record): Records {
    if Classify(m, r) == Accepted then m[r.id := r] else m
  }

  function PutAll(m: Records, rs: seq<Record>): Records {
    if rs == [] then m else Put(PutAll(m, rs[..|rs| - 1]), rs[|rs| - 1])
  }

  // The verdict on the i-th record, given what the batch stored before it.
  function VerdictOn(m: Records, rs: seq<Record>, i: nat): Verdict
    requires i < |rs|
  {
    Classify(PutAll(m, rs[..i]), rs[i])
  }

  function CountOf(m: Records, rs: seq<Record>, v: Verdict, n: nat): nat
    requires n <= |rs|
  {
    if n == 0 then 0 else CountOf(m, rs, v, n - 1) + if VerdictOn(m, rs, n - 1) == v then 1 else 0
  }

  // The positions with a conflict, in order.
  function Conflicts(m: Records, rs: seq<Record>, n: nat): seq<nat>
    requires n <= |rs|
  {
    if n == 0 then [] else
      Conflicts(m, rs, n - 1) + if VerdictOn(m, rs, n - 1) == Conflicting then [n - 1] else []
  }

  // The streams that were accepted or retransmitted into, in order of first touch.
  function Touched(m: Records, rs: seq<Record>, n: nat): seq<Stream>
    requires n <= |rs|
  {
    if n == 0 then [] else
      var before := Touched(m, rs, n - 1);
      if VerdictOn(m, rs, n - 1) != Conflicting && rs[n - 1].stream !in before
      then before + [rs[n - 1].stream] else before
  }

  // Records are filed under their own id, and no two share a slot.
  ghost predicate Filed(m: Records) {
    && (forall id :: id in m ==> m[id].id == id)
    && (forall a, b :: a in m && b in m && a != b ==> m[a].stream != m[b].stream || m[a].number != m[b].number)
  }

  lemma PutFiled(m: Records, r: Record)
    requires Filed(m)
    ensures Filed(Put(m, r))
  {
    if Classify(m, r) == Accepted {
      forall a | a in m ensures m[a].stream != r.stream || m[a].number != r.number {
        if m[a].stream == r.stream { assert m[a].number in Numbers(m, r.stream); }
      }
    }
  }

  // Stored records never change, and each accepted record is stored.
  ghost predicate Extends(m: Records, m': Records) {
    forall id :: id in m ==> id in m' && m'[id] == m[id]
  }

  lemma {:induction false} PutAllExtends(m: Records, rs: seq<Record>, i: nat)
    requires i <= |rs| && Filed(m)
    ensures Extends(PutAll(m, rs[..i]), PutAll(m, rs)) && Filed(PutAll(m, rs))
    ensures Extends(m, PutAll(m, rs))
    decreases |rs|
  {
    if rs != [] {
      var less := rs[..|rs| - 1];
      PutAllExtends(m, less, if i < |rs| then i else |less|);
      PutFiled(PutAll(m, less), rs[|rs| - 1]);
      assert rs[..i] == if i < |rs| then less[..i] else rs;
    }
  }

  // After the batch, a record it accepted or recognised is stored as is; one it refused still conflicts.
  lemma VerdictAfter(m: Records, rs: seq<Record>, i: nat)
    requires Filed(m) && i < |rs|
    ensures var after := PutAll(m, rs);
      && (VerdictOn(m, rs, i) != Conflicting ==> Classify(after, rs[i]) == Duplicate)
      && (VerdictOn(m, rs, i) == Conflicting ==> Classify(after, rs[i]) == Conflicting)
  {
    hide PutAll;
    var before := PutAll(m, rs[..i]);
    var after := PutAll(m, rs);
    PutAllExtends(m, rs, i);
    PutAllExtends(m, rs, i + 1);
    PutStep(m, rs, i);
    var r := rs[i];
    if VerdictOn(m, rs, i) == Conflicting && r.id !in before {
      var id :| id in before && before[id].stream == r.stream && before[id].number == r.number;
      assert id in after && after[id] == before[id];
      assert r.number in Numbers(after, r.stream);
      assert id != r.id;
      assert r.id in after ==> after[r.id].stream != after[id].stream || after[r.id].number != after[id].number;
    }
  }

  lemma PutStep(m: Records, rs: seq<Record>, i: nat)
    requires i < |rs|
    ensures PutAll(m, rs[..i + 1]) == Put(PutAll(m, rs[..i]), rs[i])
  {
    assert rs[..i + 1][..i] == rs[..i];
  }

  // Resending the batch: it stores nothing at any point.
  lemma {:induction false} ResendStoresNothing(m: Records, rs: seq<Record>, n: nat)
    requires Filed(m) && n <= |rs|
    ensures PutAll(PutAll(m, rs), rs[..n]) == PutAll(m, rs)
  {
    if n > 0 {
      ResendStoresNothing(m, rs, n - 1);
      PutStep(PutAll(m, rs), rs, n - 1);
      VerdictAfter(m, rs, n - 1);
    }
  }

  lemma ResendVerdict(m: Records, rs: seq<Record>, i: nat)
    requires Filed(m) && i < |rs|
    ensures VerdictOn(PutAll(m, rs), rs, i) == if VerdictOn(m, rs, i) == Conflicting then Conflicting else Duplicate
  {
    ResendStoresNothing(m, rs, i);
    VerdictAfter(m, rs, i);
  }

  // Resending the same batch changes no record, turns every accepted record into a duplicate, and
  // reports the same conflicts and touches the same streams.
  lemma {:induction false} ResendIsIdempotent(m: Records, rs: seq<Record>, n: nat)
    requires Filed(m) && n <= |rs|
    ensures var again := PutAll(m, rs);
      && PutAll(again, rs) == again
      && CountOf(again, rs, Accepted, n) == 0
      && CountOf(again, rs, Duplicate, n) == CountOf(m, rs, Accepted, n) + CountOf(m, rs, Duplicate, n)
      && Conflicts(again, rs, n) == Conflicts(m, rs, n)
      && Touched(again, rs, n) == Touched(m, rs, n)
  {
    hide VerdictOn, PutAll;
    ResendStoresNothing(m, rs, |rs|);
    assert rs[..|rs|] == rs;
    if n > 0 {
      ResendIsIdempotent(m, rs, n - 1);
      ResendVerdict(m, rs, n - 1);
    }
  }

  // Every record is counted exactly once.
  lemma {:induction false} CountsConserved(m: Records, rs: seq<Record>, n: nat)
    requires n <= |rs|
    ensures CountOf(m, rs, Accepted, n) + CountOf(m, rs, Duplicate, n) + |Conflicts(m, rs, n)| == n
    ensures forall i :: 0 <= i < |Conflicts(m, rs, n)| ==> Conflicts(m, rs, n)[i] < n
    ensures forall i, j :: 0 <= i < j < |Conflicts(m, rs, n)| ==> Conflicts(m, rs, n)[i] < Conflicts(m, rs, n)[j]
  {
    if n > 0 { CountsConserved(m, rs, n - 1); }
  }

  // ---- the tables in place ----

  class Store {
    var records: Records
    var streams: map<Stream, Row>

    // Every stream with records has a row, and the row is the recomputation from the stored set.
    ghost predicate Valid()
      reads this
    {
      && Filed(records)
      && (forall st :: st in streams <==> Numbers(records, st) != {})
      && (forall st :: st in streams ==> Accounts(Numbers(records, st), streams[st]))
    }

    constructor ()
      ensures Valid() && records == map[] && streams == map[]
    {
      records, streams := map[], map[];
    }

    // SELECT seq ... AND seq > floor ORDER BY seq
    method NumbersAbove(st: Stream, floor: int) returns (rows: seq<int>)
      ensures forall x :: x in rows <==> x in Numbers(records, st) && floor < x
      ensures forall i, j :: 0 <= i < j < |rows| ==> rows[i] < rows[j]
    {
      var all := Numbers(records, st);
      rows := OrderBy(set x | x in all && floor < x, (x: int) => x);
    }

    method MissingRanges(st: Stream, acked: int) returns (ranges: seq<Range>)
      ensures Missing(Numbers(records, st), acked, ranges)
    {
      hide Numbers, InSome;
      var rows := NumbersAbove(st, acked);
      ranges := [];
      var expected := acked + 1;
      ghost var s := Numbers(records, st);
      for i := 0 to |rows|
        invariant Scanned(s, acked, expected, ranges) && |ranges| < MAX_MISSING_RANGES
        invariant expected == if i == 0 then acked + 1 else rows[i - 1] + 1
      {
        NothingBetween(s, acked, rows, i);
        if rows[i] > expected {
          NewGap(s, acked, expected, ranges, rows[i]);
          ranges := ranges + [(expected, rows[i] - 1)];
          if |ranges| >= MAX_MISSING_RANGES {
            assert ranges[|ranges| - 1].1 < rows[i];
            return;
          }
        } else {
          NoGap(s, acked, expected, ranges);
        }
        expected := rows[i] + 1;
      }
      NothingAbove(s, acked, rows);
      assert Missing(s, acked, ranges);
    }

    // The acknowledgement loop: extend a gap-free run as far as it goes.
    method ExtendRun(st: Stream, first: int, from: int) returns (acked: int)
      requires first - 1 <= from && forall x :: first <= x <= from ==> x in Numbers(records, st)
      ensures RunEndsAt(Numbers(records, st), first, acked)
    {
      hide Numbers;
      acked := from;
      var rows := NumbersAbove(st, acked);
      ghost var s := Numbers(records, st);
      assert forall k :: 0 <= k < |rows| ==> rows[k] in rows;
      var i := 0;
      while i < |rows| && rows[i] == acked + 1
        invariant 0 <= i <= |rows|
        invariant first - 1 <= acked && forall x :: first <= x <= acked ==> x in s
        invariant forall k :: i <= k < |rows| ==> acked < rows[k]
        invariant forall x :: x in s && acked < x ==> x in rows[i..]
      {
        acked := acked + 1;
        i := i + 1;
      }
    }

    // _advance_stream: prior accounting, right for an earlier and smaller stored set, becomes right for
    // the current one, also when a lower start arrives late.
    method Advance(st: Stream, ghost earlier: set<int>) returns (v: Summary)
      requires Numbers(records, st) != {} && earlier <= Numbers(records, st)
      requires st in streams ==> Accounts(earlier, streams[st])
      modifies `streams
      ensures st in streams && streams == old(streams)[st := streams[st]]
      ensures Accounts(Numbers(records, st), streams[st])
      ensures v.stream == st && Describes(Numbers(records, st), v)
    {
      hide Numbers, Missing;
      var s := Numbers(records, st);
      var sorted := OrderBy(s, (x: int) => x);
      SortedBounds(s, sorted);
      var lo, hi := sorted[0], sorted[|sorted| - 1];
      var first := if st !in streams || lo < streams[st].first then lo else streams[st].first;
      var acked := if st in streams && first == streams[st].first then streams[st].acked else first - 1;
      acked := ExtendRun(st, first, acked);
      assert IsLeast(s, first) && RunEndsAt(s, first, acked);
      streams := streams[st := Row(first, hi, acked)];
      var missing := MissingRanges(st, acked);
      v := Summary(st, acked, hi, missing);
    }

    // store: insert the batch, then advance every touched stream once.
    method Ingest(rs: seq<Record>) returns (accepted: nat, duplicates: nat, conflicts: seq<nat>, summaries: seq<Summary>)
      requires Valid()
      modifies this
      ensures Valid()
      ensures records == PutAll(old(records), rs)
      ensures accepted == CountOf(old(records), rs, Accepted, |rs|)
      ensures duplicates == CountOf(old(records), rs, Duplicate, |rs|)
      ensures conflicts == Conflicts(old(records), rs, |rs|)
      ensures |summaries| == |Touched(old(records), rs, |rs|)|
      ensures forall k :: 0 <= k < |summaries| ==>
        summaries[k].stream == Touched(old(records), rs, |rs|)[k]
        && Describes(Numbers(records, summaries[k].stream), summaries[k])
    {
      hide Numbers, Filed, Accounts, Describes, CountOf, Conflicts;
      ghost var m := records;
      var touched: seq<Stream>;
      accepted, duplicates, conflicts, touched := InsertAll(rs);
      PutAllExtends(m, rs, 0);
      TouchedRight(m, rs, |rs|);
      assert rs[..|rs|] == rs;
      summaries := AdvanceAll(touched, m);
    }

    method InsertAll(rs: seq<Record>)
      returns (accepted: nat, duplicates: nat, conflicts: seq<nat>, touched: seq<Stream>)
      requires Filed(records)
      modifies `records
      ensures records == PutAll(old(records), rs) && Filed(records)
      ensures accepted == CountOf(old(records), rs, Accepted, |rs|)
      ensures duplicates == CountOf(old(records), rs, Duplicate, |rs|)
      ensures conflicts == Conflicts(old(records), rs, |rs|)
      ensures touched == Touched(old(records), rs, |rs|)
    {
      hide PutAll, Filed;
      accepted, duplicates, conflicts, touched := 0, 0, [], [];
      ghost var m := records;
      PutNone(m);
      for i := 0 to |rs|
        invariant records == PutAll(m, rs[..i]) && Filed(records)
        invariant accepted == CountOf(m, rs, Accepted, i)
        invariant duplicates == CountOf(m, rs, Duplicate, i)
        invariant conflicts == Conflicts(m, rs, i)
        invariant touched == Touched(m, rs, i)
      {
        var r := rs[i];
        PutStep(m, rs, i);
        PutFiled(records, r);
        if r.id in records {
          if records[r.id] == r {
            duplicates := duplicates + 1;
            if r.stream !in touched { touched := touched + [r.stream]; }
          } else {
            conflicts := conflicts + [i];
          }
        } else if r.number in Numbers(records, r.stream) {
          conflicts := conflicts + [i];
        } else {
          records := records[r.id := r];
          accepted := accepted + 1;
          if r.stream !in touched { touched := touched + [r.stream]; }
        }
      }
      assert rs[..|rs|] == rs;
    }

    // Each touched stream is advanced from its accounting of the earlier records m.
    method AdvanceAll(touched: seq<Stream>, ghost m: Records) returns (summaries: seq<Summary>)
      requires Filed(records) && Extends(m, records)
      requires forall st :: st in streams <==> Numbers(m, st) != {}
      requires forall st :: st in streams ==> Accounts(Numbers(m, st), streams[st])
      requires forall st :: Numbers(m, st) != Numbers(records, st) ==> st in touched
      requires forall st :: st in touched ==> Numbers(records, st) != {}
      requires forall i, j :: 0 <= i < j < |touched| ==> touched[i] != touched[j]
      modifies `streams
      ensures Valid()
      ensures |summaries| == |touched|
      ensures forall k :: 0 <= k < |touched| ==>
        summaries[k].stream == touched[k] && Describes(Numbers(records, touched[k]), summaries[k])
    {
      hide Numbers, Accounts, Describes, Filed;
      summaries := [];
      for i := 0 to |touched|
        invariant |summaries| == i
        invariant forall st :: st in streams <==> Numbers(m, st) != {} || st in touched[..i]
        invariant forall st :: st in streams ==>
          Accounts(if st in touched[..i] then Numbers(records, st) else Numbers(m, st), streams[st])
        invariant forall k :: 0 <= k < i ==>
          summaries[k].stream == touched[k] && Describes(Numbers(records, touched[k]), summaries[k])
      {
        NumbersMono(m, records, touched[i]);
        var v := Advance(touched[i], Numbers(m, touched[i]));
        summaries := summaries + [v];
      }
    }
  }

  // ---- the request: validation partitions the lines, storage partitions the valid ones ----

  const MAX_BATCH_RECORDS: nat := 1000

  // What validation says of one non-blank line.
  datatype Line = Invalid | WrongHost | Good(record: Record)

  datatype Reply = Reply(received: nat, accepted: nat, duplicates: nat, rejected: seq<nat>, streams: seq<Summary>)

  // The records of the first n lines that validated, and the numbers of their lines.
  function GoodRecords(lines: seq<Line>, n: nat): seq<Record>
    requires n <= |lines|
  {
    if n == 0 then [] else GoodRecords(lines, n - 1) + if lines[n - 1].Good? then [lines[n - 1].record] else []
  }

  function GoodLines(lines: seq<Line>, n: nat): (r: seq<nat>)
    requires n <= |lines|
    ensures |r| == |GoodRecords(lines, n)|
  {
    if n == 0 then [] else GoodLines(lines, n - 1) + if lines[n - 1].Good? then [n] else []
  }

  function InvalidLines(lines: seq<Line>, n: nat): seq<nat>
    requires n <= |lines|
  {
    if n == 0 then [] else InvalidLines(lines, n - 1) + if lines[n - 1].Invalid? then [n] else []
  }

  ghost predicate Refused(lines: seq<Line>) {
    |lines| == 0 || |lines| > MAX_BATCH_RECORDS || exists i :: 0 <= i < |lines| && lines[i].WrongHost?
  }

  function LinesAt(numbers: seq<nat>, positions: seq<nat>): seq<nat>
  {
    seq(|positions|, i requires 0 <= i < |positions| => if positions[i] < |numbers| then numbers[positions[i]] else 0)
  }

  ghost predicate Increasing(s: seq<nat>) {
    forall i, j :: 0 <= i < j < |s| ==> s[i] < s[j]
  }

  // Line numbers up to n, in order, of lines that satisfy ok.
  ghost predicate Listed(lines: seq<Line>, n: nat, numbers: seq<nat>, ok: Line -> bool)
    requires n <= |lines|
  {
    Increasing(numbers) && forall i :: 0 <= i < |numbers| ==> 1 <= numbers[i] <= n && ok(lines[numbers[i] - 1])
  }

  lemma ListedNext(lines: seq<Line>, n: nat, numbers: seq<nat>, ok: Line -> bool)
    requires n < |lines| && Listed(lines, n, numbers, ok)
    ensures Listed(lines, n + 1, numbers, ok)
    ensures ok(lines[n]) ==> Listed(lines, n + 1, numbers + [n + 1], ok)
  {
  }

  function IsGood(): Line -> bool { (l: Line) => l.Good? }
  function IsInvalid(): Line -> bool { (l: Line) => l.Invalid? }

  // Each line number 1..n is either a good line or an invalid one, once, and the good records are those of the
  // good lines.
  lemma {:induction false} LinesPartitioned(lines: seq<Line>, n: nat)
    requires n <= |lines| && forall i :: 0 <= i < n ==> !lines[i].WrongHost?
    ensures |GoodLines(lines, n)| + |InvalidLines(lines, n)| == n
    ensures Listed(lines, n, GoodLines(lines, n), IsGood()) && Listed(lines, n, InvalidLines(lines, n), IsInvalid())
    ensures forall i :: 0 <= i < |GoodLines(lines, n)| ==> Good(GoodRecords(lines, n)[i]) == lines[GoodLines(lines, n)[i] - 1]
  {
    if n > 0 {
      LinesPartitioned(lines, n - 1);
      ListedNext(lines, n - 1, GoodLines(lines, n - 1), IsGood());
      ListedNext(lines, n - 1, InvalidLines(lines, n - 1), IsInvalid());
    }
  }

  // Every non-blank line of an answered batch is counted exactly once: as accepted, as duplicate, or
  // as one of the rejected lines, which are named once each.
  ghost predicate EachLineOnce(lines: seq<Line>, reply: Reply) {
    && reply.received == |lines|
    && reply.accepted + reply.duplicates + |reply.rejected| == |lines|
    && (forall i :: 0 <= i < |reply.rejected| ==> 1 <= reply.rejected[i] <= |lines|)
    && (forall i, j :: 0 <= i < j < |reply.rejected| ==> reply.rejected[i] != reply.rejected[j])
  }

  lemma RepliesCountOnce(m: Records, lines: seq<Line>, reply: Reply, conflicts: seq<nat>)
    requires forall i :: 0 <= i < |lines| ==> !lines[i].WrongHost?
    requires conflicts == Conflicts(m, GoodRecords(lines, |lines|), |GoodRecords(lines, |lines|)|)
    requires reply.received == |lines|
    requires reply.accepted == CountOf(m, GoodRecords(lines, |lines|), Accepted, |GoodRecords(lines, |lines|)|)
    requires reply.duplicates == CountOf(m, GoodRecords(lines, |lines|), Duplicate, |GoodRecords(lines, |lines|)|)
    requires reply.rejected == InvalidLines(lines, |lines|) + LinesAt(GoodLines(lines, |lines|), conflicts)
    ensures EachLineOnce(lines, reply)
  {
    hide CountOf, Conflicts, GoodRecords, GoodLines, InvalidLines;
    LinesPartitioned(lines, |lines|);
    CountsConserved(m, GoodRecords(lines, |lines|), |GoodRecords(lines, |lines|)|);
    var good, bad := GoodLines(lines, |lines|), InvalidLines(lines, |lines|);
    var late := LinesAt(good, conflicts);
    forall i | 0 <= i < |late| ensures late[i] in good { assert late[i] == good[conflicts[i]]; }
    forall i | 0 <= i < |bad| ensures bad[i] in bad {}
    assert forall i, j :: 0 <= i < |bad| && 0 <= j < |late| ==> bad[i] in bad && late[j] in good;
  }

  method Answer(s: Store, lines: seq<Line>) returns (reply: Option<Reply>)
    requires s.Valid()
    modifies s
    ensures s.Valid()
    ensures reply.None? <==> |lines| == 0 || |lines| > 1000 || exists i :: 0 <= i < |lines| && lines[i].WrongHost?
    ensures reply.None? ==> s.records == old(s.records) && s.streams == old(s.streams)
    ensures reply.Some? ==> EachLineOnce(lines, reply.value) && Consistent(old(s.records), lines, reply.value, s.records)
  {
    if |lines| == 0 || |lines| > MAX_BATCH_RECORDS { return None; }
    var good, numbers, rejected := [], [], [];
    for n := 0 to |lines|
      invariant good == GoodRecords(lines, n) && numbers == GoodLines(lines, n) && rejected == InvalidLines(lines, n)
      invariant forall i :: 0 <= i < n ==> !lines[i].WrongHost?
    {
      match lines[n]
      case Invalid => rejected := rejected + [n + 1];
      case WrongHost => return None;
      case Good(r) => good, numbers := good + [r], numbers + [n + 1];
    }
    reply := Stored(s, lines, good, numbers, rejected);
  }

  // Storage, the conflicts it reports as rejected lines, and the reply.
  method Stored(s: Store, lines: seq<Line>, good: seq<Record>, numbers: seq<nat>, rejected: seq<nat>) returns (reply: Option<Reply>)
    requires s.Valid() && forall i :: 0 <= i < |lines| ==> !lines[i].WrongHost?
    requires good == GoodRecords(lines, |lines|) && numbers == GoodLines(lines, |lines|)
    requires rejected == InvalidLines(lines, |lines|)
    modifies s
    ensures s.Valid() && reply.Some?
    ensures EachLineOnce(lines, reply.value) && Consistent(old(s.records), lines, reply.value, s.records)
  {
    hide CountOf, Conflicts, GoodRecords, GoodLines, InvalidLines, Describes, Touched, PutAll;
    ghost var m := s.records;
    var accepted, duplicates, conflicts, summaries := s.Ingest(good);
    var all := rejected + LinesAt(numbers, conflicts);
    reply := Some(Reply(|lines|, accepted, duplicates, all, summaries));
    RepliesCountOnce(m, lines, reply.value, conflicts);
  }

  // The reply and the new records are what the stored records and the lines determine.
  ghost predicate Consistent(m: Records, lines: seq<Line>, reply: Reply, after: Records) {
    var rs := GoodRecords(lines, |lines|);
    && after == PutAll(m, rs)
    && reply.accepted == CountOf(m, rs, Accepted, |rs|)
    && reply.duplicates == CountOf(m, rs, Duplicate, |rs|)
    && reply.rejected == InvalidLines(lines, |lines|) + LinesAt(GoodLines(lines, |lines|), Conflicts(m, rs, |rs|))
    && |reply.streams| == |Touched(m, rs, |rs|)|
    && forall k :: 0 <= k < |reply.streams| ==>
         reply.streams[k].stream == Touched(m, rs, |rs|)[k]
         && Describes(Numbers(after, reply.streams[k].stream), reply.streams[k])
  }

  // The reply to a resent batch.
  lemma ResendReply(m: Records, lines: seq<Line>, first: Reply, second: Reply, after: Records, final: Records)
    requires Filed(m) && Consistent(m, lines, first, after) && Consistent(after, lines, second, final)
    ensures final == after
    ensures second.accepted == 0 && second.duplicates == first.accepted + first.duplicates
    ensures second.rejected == first.rejected && second.streams == first.streams
  {
    hide CountOf, Conflicts, GoodRecords, GoodLines, InvalidLines, Describes, Touched, PutAll, Filed;
    var rs := GoodRecords(lines, |lines|);
    ResendIsIdempotent(m, rs, |rs|);
    forall k | 0 <= k < |first.streams| ensures first.streams[k] == second.streams[k] {
      SummaryUnique(Numbers(after, first.streams[k].stream), first.streams[k], second.streams[k]);
    }
  }

  // A sensor that sends a batch again gets the same acknowledgement: the records that the first send left stay as
  // they are, everything stored is a duplicate, and the rejected lines and stream summaries are the same.
  method SendTwice(s: Store, lines: seq<Line>) returns (first: Option<Reply>, second: Option<Reply>, ghost between: Records)
    requires s.Valid()
    modifies s
    ensures s.Valid() && s.records == between
    ensures first.Some? <==> second.Some?
    ensures first.None? ==> between == old(s.records)
    ensures first.Some? ==>
      && Consistent(old(s.records), lines, first.value, between)
      && second.value.accepted == 0
      && second.value.duplicates == first.value.accepted + first.value.duplicates
      && second.value.rejected == first.value.rejected
      && second.value.streams == first.value.streams
  {
    ghost var m := s.records;
    first := Answer(s, lines);
    between := s.records;
    second := Answer(s, lines);
    if first.Some? {
      ResendReply(m, lines, first.value, second.value, between, s.records);
    }
  }

  // The scan has reported exactly the gaps below expected, and expected - 1 is stored unless it is acked.
  ghost predicate Scanned(s: set<int>, acked: int, expected: int, ranges: seq<Range>) {
    && Gaps(s, acked, ranges)
    && acked < expected && (expected - 1 == acked || expected - 1 in s)
    && (forall k :: 0 <= k < |ranges| ==> ranges[k].1 < expected)
    && (forall x :: acked < x < expected && x !in s ==> InSome(x, ranges))
  }

  // Sorted rows above acked leave nothing stored between neighbours.
  lemma NothingBetween(s: set<int>, acked: int, rows: seq<int>, i: nat)
    requires forall x :: x in rows <==> x in s && acked < x
    requires forall a, b :: 0 <= a < b < |rows| ==> rows[a] < rows[b]
    requires i < |rows|
    ensures var expected := if i == 0 then acked + 1 else rows[i - 1] + 1;
      expected <= rows[i] && rows[i] in s && forall x :: expected <= x < rows[i] ==> x !in s
  {
    assert rows[i] in rows;
    if i > 0 { assert rows[i - 1] in rows; }
    var expected := if i == 0 then acked + 1 else rows[i - 1] + 1;
    forall x | expected <= x < rows[i] ensures x !in s {
      if x in s {
        assert x in rows;
        var j :| 0 <= j < |rows| && rows[j] == x;
      }
    }
  }

  lemma NothingAbove(s: set<int>, acked: int, rows: seq<int>)
    requires forall x :: x in rows <==> x in s && acked < x
    requires forall a, b :: 0 <= a < b < |rows| ==> rows[a] < rows[b]
    ensures forall h :: h in s ==> h <= if rows == [] then acked else rows[|rows| - 1]
  {
    forall h | h in s && acked < h ensures rows != [] && h <= rows[|rows| - 1] {
      assert h in rows;
      var j :| 0 <= j < |rows| && rows[j] == h;
    }
    if rows != [] { assert rows[|rows| - 1] in rows; }
  }

  lemma NewGap(s: set<int>, acked: int, expected: int, ranges: seq<Range>, next: int)
    requires Scanned(s, acked, expected, ranges)
    requires expected < next && next in s && forall x :: expected <= x < next ==> x !in s
    ensures Scanned(s, acked, next + 1, ranges + [(expected, next - 1)])
    ensures forall x :: acked < x <= next - 1 && x !in s ==> InSome(x, ranges + [(expected, next - 1)])
  {
    var more := ranges + [(expected, next - 1)];
    forall x | acked < x < next + 1 && x !in s ensures InSome(x, more) {
      if x < expected {
        assert InSome(x, ranges);
        var k :| 0 <= k < |ranges| && ranges[k].0 <= x <= ranges[k].1;
        assert more[k] == ranges[k];
      } else {
        assert more[|ranges|].0 <= x <= more[|ranges|].1;
      }
    }
  }

  lemma NoGap(s: set<int>, acked: int, expected: int, ranges: seq<Range>)
    requires Scanned(s, acked, expected, ranges) && expected in s
    ensures Scanned(s, acked, expected + 1, ranges)
  {
  }

  // What the batch touched: every stream whose stored set grew, only streams with records, each once.
  lemma {:induction false} TouchedRight(m: Records, rs: seq<Record>, n: nat)
    requires Filed(m) && n <= |rs|
    ensures var after := PutAll(m, rs[..n]); var touched := Touched(m, rs, n);
      && (forall st :: Numbers(m, st) != Numbers(after, st) ==> st in touched)
      && (forall st :: st in touched ==> Numbers(after, st) != {})
      && (forall i, j :: 0 <= i < j < |touched| ==> touched[i] != touched[j])
  {
    hide Numbers, Filed, PutAll;
    if n == 0 {
      PutNone(m);
    } else {
      TouchedRight(m, rs, n - 1);
      var before := PutAll(m, rs[..n - 1]);
      PutStep(m, rs, n - 1);
      var r := rs[n - 1];
      var after, touched := Put(before, r), Touched(m, rs, n);
      forall st | Numbers(m, st) != Numbers(after, st) ensures st in touched { PutNumbers(before, r, st); }
      forall st | st in touched ensures Numbers(after, st) != {} { PutNumbers(before, r, st); }
    }
  }

  // Storing a record changes only its own stream, and leaves it with records unless refused.
  ghost predicate Grows(m: Records, r: Record, st: Stream) {
    && (st != r.stream || Classify(m, r) == Conflicting ==> Numbers(Put(m, r), st) == Numbers(m, st))
    && (st == r.stream && Classify(m, r) != Conflicting ==> Numbers(Put(m, r), st) != {})
    && (Numbers(m, st) != {} ==> Numbers(Put(m, r), st) != {})
  }

  lemma PutNumbers(m: Records, r: Record, st: Stream)
    ensures Grows(m, r, st)
  {
    var after := Put(m, r);
    if Classify(m, r) == Accepted {
      assert after[r.id].number in Numbers(after, r.stream);
      if st != r.stream {
        forall x ensures x in Numbers(after, st) <==> x in Numbers(m, st) {
          if x in Numbers(m, st) {
            var id :| id in m && m[id].stream == st && m[id].number == x;
            assert id in after && after[id] == m[id];
          }
        }
      }
    } else if Classify(m, r) == Duplicate {
      assert m[r.id].number in Numbers(m, r.stream);
    }
  }

  lemma NumbersMono(m: Records, m': Records, st: Stream)
    requires Extends(m, m')
    ensures Numbers(m, st) <= Numbers(m', st)
  {
    forall x | x in Numbers(m, st) ensures x in Numbers(m', st) {
      var id :| id in m && m[id].stream == st && m[id].number == x;
      assert id in m' && m'[id] == m[id];
    }
  }

  lemma PutNone(m: Records)
    ensures PutAll(m, []) == m
  {
  }

  lemma SortedBounds(s: set<int>, rows: seq<int>)
    requires s != {} && forall x :: x in rows <==> x in s
    requires forall i, j :: 0 <= i < j < |rows| ==> rows[i] <= rows[j]
    ensures |rows| > 0 && IsLeast(s, rows[0]) && IsGreatest(s, rows[|rows| - 1])
  {
    FirstExists(s, (x: int) => x);
    var x :| x in s;
    assert x in rows;
    assert rows[0] in rows && rows[|rows| - 1] in rows;
    forall y | y in s ensures rows[0] <= y <= rows[|rows| - 1] {
      assert y in rows;
      var i :| 0 <= i < |rows| && rows[i] == y;
    }
  }

  // ---- which records are stored ----

  // No stored record has the slot of r.
  ghost predicate SlotFree(m: Records, r: Record) {
    forall a :: a in m ==> !(m[a].stream == r.stream && m[a].number == r.number)
  }

  // A record ends up stored under its id exactly when it was, or when both its id and its slot were free; nothing
  // else changes.
  lemma TakenExactly(m: Records, r: Record)
    ensures var after := Put(m, r);
      && (r.id in after && after[r.id] == r <==> (r.id in m && m[r.id] == r) || (r.id !in m && SlotFree(m, r)))
      && (forall a :: a != r.id ==> (a in after <==> a in m))
      && Extends(m, after)
      && (after != m ==> r.id !in m && SlotFree(m, r))
  {
    NumberTaken(m, r);
  }

  lemma NumberTaken(m: Records, r: Record)
    ensures r.number in Numbers(m, r.stream) <==> !SlotFree(m, r)
  {
  }

  // New ids in free slots, each once.
  ghost predicate Fresh(m: Records, rs: seq<Record>) {
    && (forall i :: 0 <= i < |rs| ==> rs[i].id !in m && SlotFree(m, rs[i]))
    && (forall i, j :: 0 <= i < j < |rs| ==>
          rs[i].id != rs[j].id && !(rs[i].stream == rs[j].stream && rs[i].number == rs[j].number))
  }

  // The batch's numbers for a stream.
  function NumbersOf(rs: seq<Record>, st: Stream): set<int> {
    set i | 0 <= i < |rs| && rs[i].stream == st :: rs[i].number
  }

  // Exactly the old records and those of the batch.
  ghost predicate Joined(m: Records, rs: seq<Record>, after: Records) {
    && Extends(m, after)
    && (forall i :: 0 <= i < |rs| ==> rs[i].id in after && after[rs[i].id] == rs[i])
    && (forall a :: a in after && a !in m ==> HasId(rs, a))
  }

  ghost predicate HasId(rs: seq<Record>, a: string) { exists i :: 0 <= i < |rs| && rs[i].id == a }

  // A batch of fresh records is stored completely: every record is accepted, none conflicts.
  lemma {:induction false} FreshAllStored(m: Records, rs: seq<Record>, n: nat)
    requires Fresh(m, rs) && n <= |rs|
    ensures Joined(m, rs[..n], PutAll(m, rs[..n]))
    ensures CountOf(m, rs, Accepted, n) == n && CountOf(m, rs, Duplicate, n) == 0 && Conflicts(m, rs, n) == []
  {
    hide Classify;
    if n == 0 {
      PutNone(m);
      assert rs[..0] == [];
    } else {
      FreshAllStored(m, rs, n - 1);
      var before := PutAll(m, rs[..n - 1]);
      FreshNext(m, rs, n - 1, before);
      PutStep(m, rs, n - 1);
      JoinedNext(m, rs, n - 1, before);
    }
  }

  lemma FreshNext(m: Records, rs: seq<Record>, n: nat, before: Records)
    requires Fresh(m, rs) && n < |rs| && Joined(m, rs[..n], before)
    ensures rs[n].id !in before && SlotFree(before, rs[n]) && Classify(before, rs[n]) == Accepted
  {
    forall a | a in before ensures a != rs[n].id && !(before[a].stream == rs[n].stream && before[a].number == rs[n].number) {
      if a !in m {
        var i :| 0 <= i < |rs[..n]| && rs[..n][i].id == a;
        assert rs[i].id == a && before[a] == rs[i];
      }
    }
    NumberTaken(before, rs[n]);
  }

  lemma JoinedNext(m: Records, rs: seq<Record>, n: nat, before: Records)
    requires n < |rs| && Joined(m, rs[..n], before) && rs[n].id !in before
    ensures Joined(m, rs[..n + 1], before[rs[n].id := rs[n]])
  {
    var after := before[rs[n].id := rs[n]];
    assert forall i :: 0 <= i < n ==> rs[..n][i] == rs[i] && rs[..n + 1][i] == rs[i];
    assert rs[..n + 1][n] == rs[n];
    forall a | a in after && a !in m ensures HasId(rs[..n + 1], a) {
      if a != rs[n].id {
        var i :| 0 <= i < |rs[..n]| && rs[..n][i].id == a;
        assert rs[..n + 1][i].id == a;
      } else {
        assert rs[..n + 1][n].id == a;
      }
    }
  }

  // So each stream's set grows by exactly the batch's numbers for it.
  lemma FreshNumbers(m: Records, rs: seq<Record>, st: Stream)
    requires Fresh(m, rs)
    ensures Numbers(PutAll(m, rs), st) == Numbers(m, st) + NumbersOf(rs, st)
  {
    FreshAllStored(m, rs, |rs|);
    assert rs[..|rs|] == rs;
    var after := PutAll(m, rs);
    hide PutAll;
    JoinedNumbers(m, rs, after, st);
  }

  lemma JoinedNumbers(m: Records, rs: seq<Record>, after: Records, st: Stream)
    requires Joined(m, rs, after)
    ensures Numbers(after, st) == Numbers(m, st) + NumbersOf(rs, st)
  {
    forall x | x in Numbers(after, st) ensures x in Numbers(m, st) + NumbersOf(rs, st) {
      var a :| a in after && after[a].stream == st && after[a].number == x;
      if a !in m {
        var i :| 0 <= i < |rs| && rs[i].id == a;
        assert rs[i].stream == st && rs[i].number == x;
      } else {
        assert m[a].stream == st && m[a].number == x;
      }
    }
    forall x | x in Numbers(m, st) ensures x in Numbers(after, st) {
      var a :| a in m && m[a].stream == st && m[a].number == x;
      assert after[a].stream == st && after[a].number == x;
    }
    forall x | x in NumbersOf(rs, st) ensures x in Numbers(after, st) {
      var i :| 0 <= i < |rs| && rs[i].stream == st && rs[i].number == x;
      assert after[rs[i].id].stream == st && after[rs[i].id].number == x;
    }
  }

  // A sensor that sends fresh records for exactly the reported gaps, fewer than 16, is acknowledged to the end.
  lemma GapsFilled(m: Records, rs: seq<Record>, st: Stream, told: Summary, later: Summary)
    requires Fresh(m, rs) && Describes(Numbers(m, st), told) && |told.missing| < MAX_MISSING_RANGES
    requires forall x :: InSome(x, told.missing) <==> x in NumbersOf(rs, st)
    requires Describes(Numbers(PutAll(m, rs), st), later)
    ensures later.highest == told.highest && later.acked == later.highest && later.missing == []
  {
    FreshNumbers(m, rs, st);
    hide PutAll, Numbers, NumbersOf;
    SetFilled(Numbers(m, st), NumbersOf(rs, st), told, later);
  }

  lemma SetFilled(s: set<int>, gaps: set<int>, told: Summary, later: Summary)
    requires Describes(s, told) && |told.missing| < MAX_MISSING_RANGES && Describes(s + gaps, later)
    requires forall x :: InSome(x, told.missing) <==> x in gaps
    ensures later.highest == told.highest && later.acked == later.highest && later.missing == []
  {
    hide Missing, InSome;
    var first :| IsLeast(s, first) && RunEndsAt(s, first, told.acked);
    forall x | x in gaps ensures first <= x < told.highest { GapWithin(s, told, first, x); }
    forall x | first <= x <= told.highest ensures x in s + gaps {
      if x !in s { GapReported(s, told.acked, told.missing, x, told.highest); }
    }
    FullRun(s + gaps, first, told.highest, later);
  }

  lemma GapWithin(s: set<int>, told: Summary, first: int, x: int)
    requires Missing(s, told.acked, told.missing) && IsGreatest(s, told.highest) && first - 1 <= told.acked && InSome(x, told.missing)
    ensures first <= x < told.highest
  {
    var i :| 0 <= i < |told.missing| && told.missing[i].0 <= x <= told.missing[i].1;
    assert told.missing[i].1 + 1 in s;
  }

  // A set without gaps has the summary of one run.
  lemma FullRun(s: set<int>, first: int, last: int, v: Summary)
    requires IsLeast(s, first) && IsGreatest(s, last) && (forall x :: first <= x <= last ==> x in s) && Describes(s, v)
    ensures v.highest == last && v.acked == last && v.missing == []
  {
    var from :| IsLeast(s, from) && RunEndsAt(s, from, v.acked);
    RunEndUnique(s, first, v.acked, last);
    NoGapAbove(s, last, v.missing);
  }

  lemma NoGapAbove(s: set<int>, highest: int, ranges: seq<Range>)
    requires IsGreatest(s, highest) && Gaps(s, highest, ranges)
    ensures ranges == []
  {
    hide Gaps;
    if ranges != [] { GapEnds(s, highest, ranges, 0); }
  }

  lemma GapEnds(s: set<int>, acked: int, ranges: seq<Range>, i: nat)
    requires Gaps(s, acked, ranges) && i < |ranges|
    ensures acked < ranges[i].1 + 1 && ranges[i].1 + 1 in s
  {
  }
}
