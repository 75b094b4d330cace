// What several machines share: options, bytes and clocks, and what the SQL aggregates SUM(...) and COUNT(*), ORDER BY and
// bulk updates denote over table rows.
module Aggregates {

  datatype Option<+T> = None | Some(value: T)

  newtype Byte = x: int | 0 <= x < 256
  type Bytes = seq<Byte>

  function Min(a: int, b: int): int { if a <= b then a else b }

  // The sum of all values of a map, in no particular order.
  ghost function Total<K>(w: map<K, nat>): nat
    decreases |w|
  {
    if w == map[] then 0 else
      var k :| k in w;
      w[k] + Total(w - {k})
  }

  // The order in which Total picks its keys does not matter.
  lemma {:induction false} TotalPick<K>(w: map<K, nat>, k: K)
    requires k in w
    ensures Total(w) == w[k] + Total(w - {k})
    decreases |w|
  {
    var p :| p in w && Total(w) == w[p] + Total(w - {p});
    if p != k {
      TotalPick(w - {p}, k);
      TotalPick(w - {k}, p);
      assert w - {p} - {k} == w - {k} - {p};
    }
  }

  lemma TotalSet<K>(w: map<K, nat>, k: K, v: nat)
    ensures Total(w[k := v]) == Total(w) - (if k in w then w[k] else 0) + v
  {
    var w' := w[k := v];
    TotalPick(w', k);
    if k in w {
      TotalPick(w, k);
      assert w' - {k} == w - {k};
    } else {
      assert w' - {k} == w;
    }
  }

  lemma {:induction false} TotalMono<K>(w: map<K, nat>, w': map<K, nat>)
    requires w.Keys == w'.Keys
    requires forall k :: k in w ==> w'[k] <= w[k]
    ensures Total(w') <= Total(w)
    decreases |w|
  {
    if w != map[] {
      var k :| k in w;
      TotalPick(w, k);
      TotalPick(w', k);
      TotalMono(w - {k}, w' - {k});
    } else {
      assert w' == map[];
    }
  }

  // SUM(f(row)) over a keyed table.
  ghost function Weights<K, R>(rows: map<K, R>, f: R -> nat): (w: map<K, nat>)
  {
    map k | k in rows :: f(rows[k])
  }

  ghost function SumOf<K, R>(rows: map<K, R>, f: R -> nat): nat
  {
    Total(Weights(rows, f))
  }

  // Inserting or replacing one row moves the aggregate by exactly that row's contribution.
  lemma SumOfSet<K, R>(rows: map<K, R>, k: K, r: R, f: R -> nat)
    ensures SumOf(rows[k := r], f) == SumOf(rows, f) - (if k in rows then f(rows[k]) else 0) + f(r)
  {
    assert Weights(rows[k := r], f) == Weights(rows, f)[k := f(r)];
    TotalSet(Weights(rows, f), k, f(r));
  }

  lemma SumOfMono<K, R>(rows: map<K, R>, rows': map<K, R>, f: R -> nat)
    requires rows.Keys == rows'.Keys
    requires forall k :: k in rows ==> f(rows'[k]) <= f(rows[k])
    ensures SumOf(rows', f) <= SumOf(rows, f)
  {
    TotalMono(Weights(rows, f), Weights(rows', f));
  }

  lemma CardinalityMinus<K>(keys: set<K>, k: K)
    ensures |keys| == |keys - {k}| + if k in keys then 1 else 0
  {
    assert if k in keys then keys == (keys - {k}) + {k} else keys - {k} == keys;
  }

  // A list without repetition is as long as its set of members is large.
  lemma {:induction false} DistinctSize<K>(rows: seq<K>, got: set<K>)
    requires (forall i, j :: 0 <= i < j < |rows| ==> rows[i] != rows[j]) && forall k :: k in got <==> k in rows
    ensures |got| == |rows|
    decreases |rows|
  {
    if rows == [] {
      assert got == {};
    } else {
      var n := |rows| - 1;
      assert rows == rows[..n] + [rows[n]];
      DistinctSize(rows[..n], got - {rows[n]});
      CardinalityMinus(got, rows[n]);
    }
  }

  lemma SubtractSize<K>(all: set<K>, some: set<K>)
    requires some <= all
    ensures |all - some| == |all| - |some|
  {
    assert all == some + (all - some);
  }

  lemma SameSizeSubset<K>(a: set<K>, b: set<K>)
    requires a <= b && |b| <= |a|
    ensures a == b
  {
    SubtractSize(b, a);
  }

  // The clock never goes back along the requests, nor before the start.
  ghost predicate Monotone<T>(ops: seq<T>, now: T -> int, start: int) {
    && (forall i :: 0 <= i < |ops| ==> start <= now(ops[i]))
    && (forall i, j :: 0 <= i < j < |ops| ==> now(ops[i]) <= now(ops[j]))
  }

  // The time of the last request.
  function Clock<T>(ops: seq<T>, now: T -> int, start: int): int { if ops == [] then start else now(ops[|ops| - 1]) }

  lemma MonotonePrefix<T>(ops: seq<T>, now: T -> int, start: int)
    requires Monotone(ops, now, start) && ops != []
    ensures Monotone(ops[..|ops| - 1], now, start) && Clock(ops[..|ops| - 1], now, start) <= now(ops[|ops| - 1])
  {
  }

  // COUNT(*) with a predicate is the size of the set of matching keys.
  lemma {:induction false} SumOfCounts<K, R>(rows: map<K, R>, keys: set<K>, f: R -> nat)
    requires forall k :: k in rows ==> f(rows[k]) == if k in keys then 1 else 0
    requires keys <= rows.Keys
    ensures SumOf(rows, f) == |keys|
    decreases rows.Keys
  {
    if rows.Keys == {} {
      assert Weights(rows, f) == map[];
      assert keys == {};
    } else {
      hide SumOf;
      var k :| k in rows;
      var less := rows - {k};
      assert rows == less[k := rows[k]];
      SumOfSet(less, k, rows[k], f);
      SumOfCounts(less, keys - {k}, f);
      CardinalityMinus(keys, k);
    }
  }

  // The aggregate as a query computes it: one pass over the rows.
  method Aggregate<K(==), R>(rows: map<K, R>, f: R -> nat) returns (sum: nat)
    ensures sum == SumOf(rows, f)
  {
    sum := 0;
    var rest := rows;
    while rest.Keys != {}
      invariant rest.Keys <= rows.Keys
      invariant forall k :: k in rest ==> rest[k] == rows[k]
      invariant SumOf(rows, f) == sum + SumOf(rest, f)
      decreases |rest.Keys|
    {
      var k :| k in rest.Keys;
      TotalPick(Weights(rest, f), k);
      assert Weights(rest, f) - {k} == Weights(rest - {k}, f);
      assert (rest - {k}).Keys == rest.Keys - {k};
      sum := sum + f(rest[k]);
      rest := rest - {k};
    }
    assert Weights(rest, f) == map[];
  }

  // A nonempty set has an element that ORDER BY key puts first.
  lemma {:induction false} FirstExists<T>(xs: set<T>, key: T -> int)
    requires xs != {}
    ensures exists x :: x in xs && forall y :: y in xs ==> key(x) <= key(y)
    decreases |xs|
  {
    var x :| x in xs;
    if xs != {x} {
      FirstExists(xs - {x}, key);
      var y :| y in xs - {x} && forall z :: z in xs - {x} ==> key(y) <= key(z);
      var first := if key(x) <= key(y) then x else y;
      forall z | z in xs ensures key(first) <= key(z) {
        if z != x { assert z in xs - {x}; }
      }
    }
  }

  // SELECT ... ORDER BY key: every element once, in key order.
  method OrderBy<T(==)>(xs: set<T>, key: T -> int) returns (rows: seq<T>)
    ensures forall x :: x in rows <==> x in xs
    ensures forall i, j :: 0 <= i < j < |rows| ==> rows[i] != rows[j] && key(rows[i]) <= key(rows[j])
  {
    rows := [];
    var rest := xs;
    while rest != {}
      invariant rest <= xs
      invariant forall x :: x in xs <==> x in rows || x in rest
      invariant forall i, x :: 0 <= i < |rows| && x in rest ==> rows[i] != x && key(rows[i]) <= key(x)
      invariant forall i, j :: 0 <= i < j < |rows| ==> rows[i] != rows[j] && key(rows[i]) <= key(rows[j])
      decreases |rest|
    {
      FirstExists(rest, key);
      var x :| x in rest && forall y :: y in rest ==> key(x) <= key(y);
      rows := rows + [x];
      rest := rest - {x};
    }
  }

  // UPDATE ... WHERE key IN keys.
  function Updated<K, V>(rows: map<K, V>, keys: set<K>, f: V -> V): map<K, V> {
    map k | k in rows :: if k in keys then f(rows[k]) else rows[k]
  }

  // The same, one row at a time over the rows of a query.
  method UpdateEach<K(==), V>(rows: map<K, V>, keys: set<K>, f: V -> V) returns (after: map<K, V>)
    requires keys <= rows.Keys
    ensures after == Updated(rows, keys, f)
  {
    after := rows;
    var rest := keys;
    while rest != {}
      invariant rest <= keys
      invariant after == Updated(rows, keys - rest, f)
      decreases |rest|
    {
      var k :| k in rest;
      after := after[k := f(after[k])];
      rest := rest - {k};
    }
    assert keys - rest == keys;
  }
}
