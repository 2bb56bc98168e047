/** Generic table operations the pipeline is built from: grouping rows by a
    key, reducing each group, looking keys up, and joining two keyed tables
    the way `DataFrame.groupby(...).agg(...)` and `pd.merge` do.

    A keyed table is a sequence of `Group(key, value)` rows. Row order of a
    grouped table is not modelled: contracts speak of key sets and of the
    value each key carries. */
module Tables {

  /** A cell that may be missing (NaN in the source). */
  datatype Option<T> = None | Some(value: T) {

    /** `fillna(default)` for one cell. */
    function GetOr(default: T): (r: T)
      ensures Some? ==> r == value
      ensures None? ==> r == default
    {
      match this
      case Some(v) => v
      case None => default
    }
  }

  /** One row of a keyed table. */
  datatype Group<K, V> = Group(key: K, value: V)

  function KeyOf<K(!new), V(!new)>(g: Group<K, V>): K {
    g.key
  }

  /** The keys the rows carry. */
  ghost function KeysOf<R, K>(rows: seq<R>, key: R -> K): set<K> {
    set r | r in rows :: key(r)
  }

  /** Two row sequences that agree position by position under their key
      functions have the same key set. */
  lemma SameKeys<A, B, K>(a: seq<A>, f: A -> K, b: seq<B>, g: B -> K)
    requires |a| == |b| && forall i :: 0 <= i < |a| ==> f(a[i]) == g(b[i])
    ensures KeysOf(a, f) == KeysOf(b, g)
  {
    forall k | k in KeysOf(a, f) ensures k in KeysOf(b, g) {
      var x :| x in a && f(x) == k;
      var i :| 0 <= i < |a| && a[i] == x;
      assert b[i] in b;
    }
    forall k | k in KeysOf(b, g) ensures k in KeysOf(a, f) {
      var y :| y in b && g(y) == k;
      var i :| 0 <= i < |b| && b[i] == y;
      assert a[i] in a;
    }
  }

  /** The keys of a keyed table. */
  ghost function TableKeys<K, V>(t: seq<Group<K, V>>): set<K> {
    set g | g in t :: g.key
  }

  predicate Distinct<K(!new,==)>(ks: seq<K>) {
    forall i, j :: 0 <= i < j < |ks| ==> ks[i] != ks[j]
  }

  /** No key occurs on two rows. */
  predicate DistinctKeys<K(!new,==), V(!new)>(t: seq<Group<K, V>>) {
    forall i, j :: 0 <= i < j < |t| ==> t[i].key != t[j].key
  }

  // ------------------------------------------------------------- grouping

  /** The group of key `k`: the rows carrying it, in input order. */
  function Filter<R(!new), K(!new,==)>(rows: seq<R>, key: R -> K, k: K): (g: seq<R>)
    ensures |g| <= |rows|
    ensures forall r :: r in g <==> r in rows && key(r) == k
  {
    if rows == [] then []
    else (if key(rows[0]) == k then [rows[0]] else []) + Filter(rows[1..], key, k)
  }

  /** Every distinct key present in the rows, once each. */
  function Keys<R(!new), K(!new,==)>(rows: seq<R>, key: R -> K): (ks: seq<K>)
    ensures Distinct(ks)
    ensures forall k :: k in ks <==> k in KeysOf(rows, key)
  {
    if rows == [] then []
    else
      var ks := Keys(rows[1..], key);
      assert forall k :: k in KeysOf(rows, key) <==> k == key(rows[0]) || k in KeysOf(rows[1..], key) by {
        assert rows == [rows[0]] + rows[1..];
      }
      if key(rows[0]) in ks then ks else [key(rows[0])] + ks
  }

  /** Reduce the group of each key in `ks`. */
  function ReduceEach<R(!new), K(!new,==), V(!new)>(ks: seq<K>, rows: seq<R>, key: R -> K, reduce: seq<R> -> V): (t: seq<Group<K, V>>)
    ensures |t| == |ks|
    ensures forall i :: 0 <= i < |t| ==> t[i].key == ks[i]
    ensures forall i :: 0 <= i < |t| ==> t[i].value == reduce(Filter(rows, key, ks[i]))
  {
    if ks == [] then []
    else [Group(ks[0], reduce(Filter(rows, key, ks[0])))] + ReduceEach(ks[1..], rows, key, reduce)
  }

  /** `groupby(key).agg(reduce)`: one row per key present in the input,
      holding the reduction of exactly the rows with that key. */
  function Aggregate<R(!new), K(!new,==), V(!new)>(rows: seq<R>, key: R -> K, reduce: seq<R> -> V): (t: seq<Group<K, V>>)
    ensures DistinctKeys(t)
    ensures TableKeys(t) == KeysOf(rows, key)
    ensures |t| == |KeysOf(rows, key)|
    ensures forall i :: 0 <= i < |t| ==> |Filter(rows, key, t[i].key)| > 0
    ensures forall i :: 0 <= i < |t| ==> t[i].value == reduce(Filter(rows, key, t[i].key))
  {
    var ks := Keys(rows, key);
    var t := ReduceEach(ks, rows, key, reduce);
    ReduceEachShape(ks, rows, key, reduce, t);
    t
  }

  /** Reducing the groups of every present key, once each, gives one row per
      present key, each over a non-empty group. */
  lemma ReduceEachShape<R(!new), K(!new), V(!new)>(ks: seq<K>, rows: seq<R>, key: R -> K, reduce: seq<R> -> V,
                                                   t: seq<Group<K, V>>)
    requires Distinct(ks) && forall k :: k in ks <==> k in KeysOf(rows, key)
    requires t == ReduceEach(ks, rows, key, reduce)
    ensures DistinctKeys(t)
    ensures TableKeys(t) == KeysOf(rows, key)
    ensures |t| == |KeysOf(rows, key)|
    ensures forall i :: 0 <= i < |t| ==> |Filter(rows, key, t[i].key)| > 0
  {
    forall i | 0 <= i < |t| ensures |Filter(rows, key, t[i].key)| > 0 {
      assert ks[i] in ks;
      var r :| r in rows && key(r) == ks[i];
      assert r in Filter(rows, key, ks[i]);
    }
    forall k | k in KeysOf(rows, key) ensures k in TableKeys(t) {
      var i :| 0 <= i < |ks| && ks[i] == k;
      assert t[i] in t;
    }
    KeysCard(ks, KeysOf(rows, key));
  }

  lemma KeysCard<K(!new)>(ks: seq<K>, s: set<K>)
    requires Distinct(ks) && forall k :: k in ks <==> k in s
    ensures |ks| == |s|
  {
    DistinctCard(ks);
    assert (set k | k in ks) == s;
  }

  lemma {:induction false} DistinctCard<K(!new)>(ks: seq<K>)
    requires Distinct(ks)
    ensures |set k | k in ks| == |ks|
  {
    if ks != [] {
      DistinctCard(ks[1..]);
      assert (set k | k in ks) == {ks[0]} + (set k | k in ks[1..]);
      assert ks[0] !in ks[1..];
    }
  }

  // ------------------------------------------------------------ reductions

  /** `sum` of one column. */
  function SumBy<R(!new)>(rows: seq<R>, val: R -> real): real {
    if rows == [] then 0.0 else val(rows[0]) + SumBy(rows[1..], val)
  }

  /** `mean` of one column; a group is never empty, 0 is returned otherwise. */
  function MeanBy<R(!new)>(rows: seq<R>, val: R -> real): (m: real)
    ensures |rows| == 1 ==> m == val(rows[0])
  {
    if |rows| == 0 then 0.0
    else
      assert |rows| == 1 ==> SumBy(rows, val) == val(rows[0]) by {
        if |rows| == 1 {
          assert rows[1..] == [];
        }
      }
      SumBy(rows, val) / (|rows| as real)
  }

  /** Reference: sum of `val` over the rows whose key is `k`, scanning the
      whole input. */
  function SumWhere<R(!new), K(!new,==)>(rows: seq<R>, key: R -> K, k: K, val: R -> real): real {
    if rows == [] then 0.0
    else (if key(rows[0]) == k then val(rows[0]) else 0.0) + SumWhere(rows[1..], key, k, val)
  }

  /** Reference: number of rows whose key is `k`. */
  function CountWhere<R(!new), K(!new,==)>(rows: seq<R>, key: R -> K, k: K): (n: nat)
    ensures n > 0 <==> k in KeysOf(rows, key)
  {
    if rows == [] then 0
    else
      assert forall x :: x in KeysOf(rows, key) <==> x == key(rows[0]) || x in KeysOf(rows[1..], key) by {
        assert rows == [rows[0]] + rows[1..];
      }
      (if key(rows[0]) == k then 1 else 0) + CountWhere(rows[1..], key, k)
  }

  /** Summing a group is summing the matching rows of the whole input. */
  lemma {:induction false} FilterSum<R(!new), K(!new)>(rows: seq<R>, key: R -> K, k: K, val: R -> real)
    ensures SumBy(Filter(rows, key, k), val) == SumWhere(rows, key, k, val)
  {
    if rows != [] {
      FilterSum(rows[1..], key, k, val);
      var g := Filter(rows[1..], key, k);
      if key(rows[0]) == k {
        assert ([rows[0]] + g)[1..] == g;
      } else {
        assert [] + g == g;
      }
    }
  }

  /** A group has as many rows as the input has rows with that key. */
  lemma {:induction false} FilterCount<R(!new), K(!new)>(rows: seq<R>, key: R -> K, k: K)
    ensures |Filter(rows, key, k)| == CountWhere(rows, key, k)
  {
    if rows != [] {
      FilterCount(rows[1..], key, k);
    }
  }

  /** The mean of a group is the sum over the input's matching rows divided
      by their number. */
  lemma GroupMean<R(!new), K(!new)>(rows: seq<R>, key: R -> K, k: K, val: R -> real)
    requires k in KeysOf(rows, key)
    ensures CountWhere(rows, key, k) > 0
    ensures MeanBy(Filter(rows, key, k), val)
            == SumWhere(rows, key, k, val) / (CountWhere(rows, key, k) as real)
  {
    FilterSum(rows, key, k, val);
    FilterCount(rows, key, k);
  }

  /** A function applied to every value of a keyed table, keys untouched. */
  function MapValues<K, V, W>(t: seq<Group<K, V>>, f: V -> W): (r: seq<Group<K, W>>)
    ensures |r| == |t|
    ensures forall i :: 0 <= i < |r| ==> r[i].key == t[i].key && r[i].value == f(t[i].value)
  {
    seq(|t|, i requires 0 <= i < |t| => Group(t[i].key, f(t[i].value)))
  }

  /** Mapping the values keeps the key set and one row per key. */
  lemma MapValuesKeys<K(!new), V(!new), W(!new)>(t: seq<Group<K, V>>, f: V -> W)
    ensures TableKeys(MapValues(t, f)) == TableKeys(t)
    ensures DistinctKeys(t) ==> DistinctKeys(MapValues(t, f))
  {
    var r := MapValues(t, f);
    forall k | k in TableKeys(t) ensures k in TableKeys(r) {
      var i :| 0 <= i < |t| && t[i].key == k;
      assert r[i] in r;
    }
  }

  // ------------------------------------------------------------ partition

  /** Sum, over the keys `ks`, of each key's group total. */
  function GroupTotals<R(!new), K(!new,==)>(ks: seq<K>, rows: seq<R>, key: R -> K, val: R -> real): real {
    if ks == [] then 0.0 else SumWhere(rows, key, ks[0], val) + GroupTotals(ks[1..], rows, key, val)
  }

  /** Sum over `ks` of `v` for the one key equal to `x`. */
  function Indicator<K(!new,==)>(ks: seq<K>, x: K, v: real): real {
    if ks == [] then 0.0 else (if ks[0] == x then v else 0.0) + Indicator(ks[1..], x, v)
  }

  lemma {:induction false} IndicatorOnce<K(!new)>(ks: seq<K>, x: K, v: real)
    requires Distinct(ks)
    ensures Indicator(ks, x, v) == if x in ks then v else 0.0
  {
    if ks != [] {
      IndicatorOnce(ks[1..], x, v);
      if ks[0] == x {
        assert x !in ks[1..];
      }
    }
  }

  lemma {:induction false} GroupTotalsStep<R(!new), K(!new)>(ks: seq<K>, rows: seq<R>, key: R -> K, val: R -> real)
    requires rows != []
    ensures GroupTotals(ks, rows, key, val)
            == GroupTotals(ks, rows[1..], key, val) + Indicator(ks, key(rows[0]), val(rows[0]))
  {
    if ks != [] {
      GroupTotalsStep(ks[1..], rows, key, val);
    }
  }

  /** The groups partition the input: adding up every key's group total
      gives the column total. */
  lemma {:induction false} PartitionTotal<R(!new), K(!new)>(ks: seq<K>, rows: seq<R>, key: R -> K, val: R -> real)
    requires Distinct(ks)
    requires forall r :: r in rows ==> key(r) in ks
    ensures GroupTotals(ks, rows, key, val) == SumBy(rows, val)
  {
    if rows == [] {
      GroupTotalsEmpty(ks, rows, key, val);
    } else {
      assert forall r :: r in rows[1..] ==> r in rows;
      PartitionTotal(ks, rows[1..], key, val);
      GroupTotalsStep(ks, rows, key, val);
      IndicatorOnce(ks, key(rows[0]), val(rows[0]));
    }
  }

  lemma {:induction false} GroupTotalsEmpty<R(!new), K(!new)>(ks: seq<K>, rows: seq<R>, key: R -> K, val: R -> real)
    requires rows == []
    ensures GroupTotals(ks, rows, key, val) == 0.0
  {
    if ks != [] {
      GroupTotalsEmpty(ks[1..], rows, key, val);
    }
  }

  /** Summing a reduced column of `ReduceEach` adds up the group totals,
      when the reduction of a group is that group's sum. */
  lemma {:induction false} ReduceEachTotal<R(!new), K(!new), V(!new)>(ks: seq<K>, rows: seq<R>, key: R -> K,
                                                          reduce: seq<R> -> V, val: R -> real, out: Group<K, V> -> real)
    requires forall k, g :: out(Group(k, reduce(g))) == SumBy(g, val)
    ensures SumBy(ReduceEach(ks, rows, key, reduce), out) == GroupTotals(ks, rows, key, val)
  {
    if ks != [] {
      ReduceEachTotal(ks[1..], rows, key, reduce, val, out);
      FilterSum(rows, key, ks[0], val);
      var t := ReduceEach(ks, rows, key, reduce);
      assert t[1..] == ReduceEach(ks[1..], rows, key, reduce);
    }
  }

  /** Aggregating by sum keeps the column total: the output rows add up to
      what the input rows add up to. */
  lemma AggregateKeepsTotal<R(!new), K(!new), V(!new)>(rows: seq<R>, key: R -> K, reduce: seq<R> -> V,
                                         val: R -> real, out: Group<K, V> -> real)
    requires forall k, g :: out(Group(k, reduce(g))) == SumBy(g, val)
    ensures SumBy(Aggregate(rows, key, reduce), out) == SumBy(rows, val)
  {
    var ks := Keys(rows, key);
    ReduceEachTotal(ks, rows, key, reduce, val, out);
    PartitionTotal(ks, rows, key, val);
  }

  // --------------------------------------------------------------- lookup

  /** The value of the first row carrying key `k`, if any. */
  function Lookup<K(!new,==), V(!new)>(t: seq<Group<K, V>>, k: K): (r: Option<V>)
    ensures r.Some? <==> k in TableKeys(t)
    ensures r.Some? ==> Group(k, r.value) in t
  {
    if t == [] then None
    else if t[0].key == k then Some(t[0].value)
    else
      assert TableKeys(t) == {t[0].key} + TableKeys(t[1..]) by {
        assert t == [t[0]] + t[1..];
      }
      Lookup(t[1..], k)
  }

  /** The first row's key occurs nowhere else in a table with distinct keys. */
  lemma HeadKeyFresh<K(!new), V(!new)>(t: seq<Group<K, V>>)
    requires DistinctKeys(t) && t != []
    ensures DistinctKeys(t[1..])
    ensures t[0].key !in TableKeys(t[1..])
  {
    forall g | g in t[1..] ensures g.key != t[0].key {
      var j :| 0 <= j < |t[1..]| && t[1..][j] == g;
      assert t[j + 1] == g;
    }
  }

  /** Two tables with distinct keys and no key in common concatenate into
      one with distinct keys. */
  lemma DistinctConcat<K(!new), V(!new)>(l: seq<Group<K, V>>, r: seq<Group<K, V>>)
    requires DistinctKeys(l) && DistinctKeys(r)
    requires TableKeys(l) !! TableKeys(r)
    ensures DistinctKeys(l + r)
  {
    forall i, j | 0 <= i < j < |l + r| ensures (l + r)[i].key != (l + r)[j].key {
      if i < |l| <= j {
        assert l[i] in l && r[j - |l|] in r;
        assert l[i].key in TableKeys(l) && r[j - |l|].key in TableKeys(r);
      }
    }
  }

  /** In a table with distinct keys, every row is what its key looks up. */
  lemma {:induction false} LookupRow<K(!new), V(!new)>(t: seq<Group<K, V>>, i: int)
    requires DistinctKeys(t) && 0 <= i < |t|
    ensures Lookup(t, t[i].key) == Some(t[i].value)
  {
    if i > 0 {
      LookupRow(t[1..], i - 1);
    }
  }

  /** A row of a table with distinct keys is what its key looks up. */
  lemma MemberLookup<K(!new), V(!new)>(t: seq<Group<K, V>>, g: Group<K, V>)
    requires DistinctKeys(t) && g in t
    ensures Lookup(t, g.key) == Some(g.value)
  {
    var i :| 0 <= i < |t| && t[i] == g;
    LookupRow(t, i);
  }

  // ---------------------------------------------------------------- joins

  /** Rows of `b` matching the key of `x`, paired with `x`. */
  function Matches<K(!new,==), A(!new), B(!new)>(x: Group<K, A>, b: seq<Group<K, B>>): (m: seq<Group<K, (A, B)>>)
    ensures |m| <= |b|
    ensures forall g :: g in m ==> g.key == x.key && g.value.0 == x.value && Group(x.key, g.value.1) in b
    ensures m == [] <==> x.key !in TableKeys(b)
  {
    if b == [] then []
    else
      assert TableKeys(b) == {b[0].key} + TableKeys(b[1..]) by {
        assert b == [b[0]] + b[1..];
      }
      (if b[0].key == x.key then [Group(x.key, (x.value, b[0].value))] else []) + Matches(x, b[1..])
  }

  /** `pd.merge(a, b, on=key, how="inner")`: every pair of rows with equal
      keys, in the order of `a`. */
  function InnerJoin<K(!new,==), A(!new), B(!new)>(a: seq<Group<K, A>>, b: seq<Group<K, B>>): (t: seq<Group<K, (A, B)>>)
    ensures TableKeys(t) == TableKeys(a) * TableKeys(b)
    ensures forall g :: g in t ==> Group(g.key, g.value.0) in a && Group(g.key, g.value.1) in b
  {
    if a == [] then []
    else
      assert TableKeys(a) == {a[0].key} + TableKeys(a[1..]) by {
        assert a == [a[0]] + a[1..];
      }
      var m := Matches(a[0], b);
      var rest := InnerJoin(a[1..], b);
      assert TableKeys(m + rest) == TableKeys(m) + TableKeys(rest);
      assert m != [] ==> TableKeys(m) == {a[0].key} by {
        if m != [] {
          assert m[0] in m;
        }
      }
      m + rest
  }

  /** Rows of `b` matching the key of `x`, with both sides present; or `x`
      alone when nothing matches. */
  function OuterMatches<K(!new,==), A(!new), B(!new)>(x: Group<K, A>, b: seq<Group<K, B>>): (m: seq<Group<K, (Option<A>, Option<B>)>>)
    ensures m != []
    ensures |m| == if Matches(x, b) == [] then 1 else |Matches(x, b)|
    ensures forall g :: g in m ==> g.key == x.key && g.value.0 == Some(x.value)
    ensures forall g :: g in m ==> (g.value.1.Some? ==> Group(x.key, g.value.1.value) in b)
    ensures forall g :: g in m ==> (g.value.1.None? ==> x.key !in TableKeys(b))
  {
    var m := Matches(x, b);
    if m != [] then
      var p := PairUp(m);
      assert forall g :: g in p ==> exists i :: 0 <= i < |m| && g == Group(m[i].key, (Some(m[i].value.0), Some(m[i].value.1)));
      assert forall i :: 0 <= i < |m| ==> m[i] in m;
      p
    else [Group(x.key, (Some(x.value), None))]
  }

  function PairUp<K(!new), A(!new), B(!new)>(m: seq<Group<K, (A, B)>>): (p: seq<Group<K, (Option<A>, Option<B>)>>)
    ensures |p| == |m|
    ensures forall i :: 0 <= i < |p| ==> p[i] == Group(m[i].key, (Some(m[i].value.0), Some(m[i].value.1)))
  {
    if m == [] then []
    else [Group(m[0].key, (Some(m[0].value.0), Some(m[0].value.1)))] + PairUp(m[1..])
  }

  /** Rows of `b` whose key is nowhere in `a`, with the left side missing. */
  function RightOnly<K(!new,==), A(!new), B(!new)>(a: seq<Group<K, A>>, b: seq<Group<K, B>>): (t: seq<Group<K, (Option<A>, Option<B>)>>)
    ensures forall g :: g in t ==> g.key !in TableKeys(a) && g.value.0 == None && g.value.1.Some?
                                    && Group(g.key, g.value.1.value) in b
    ensures TableKeys(t) == TableKeys(b) - TableKeys(a)
  {
    if b == [] then []
    else
      assert TableKeys(b) == {b[0].key} + TableKeys(b[1..]) by {
        assert b == [b[0]] + b[1..];
      }
      var rest := RightOnly(a, b[1..]);
      if Lookup(a, b[0].key).Some? then rest
      else
        assert TableKeys([Group(b[0].key, (None, Some(b[0].value)))] + rest) == {b[0].key} + TableKeys(rest);
        [Group(b[0].key, (None, Some(b[0].value)))] + rest
  }

  /** Every row of `a`, each with its matches in `b` or alone. */
  function LeftPart<K(!new,==), A(!new), B(!new)>(a: seq<Group<K, A>>, b: seq<Group<K, B>>): (t: seq<Group<K, (Option<A>, Option<B>)>>)
    ensures TableKeys(t) == TableKeys(a)
    ensures forall g :: g in t ==> g.value.0.Some? && Group(g.key, g.value.0.value) in a
    ensures forall g :: g in t ==> (g.value.1.Some? ==> Group(g.key, g.value.1.value) in b)
    ensures forall g :: g in t ==> (g.value.1.None? ==> g.key !in TableKeys(b))
  {
    if a == [] then []
    else
      assert TableKeys(a) == {a[0].key} + TableKeys(a[1..]) by {
        assert a == [a[0]] + a[1..];
      }
      var m := OuterMatches(a[0], b);
      var rest := LeftPart(a[1..], b);
      assert TableKeys(m + rest) == TableKeys(m) + TableKeys(rest);
      assert TableKeys(m) == {a[0].key} by {
        assert m[0] in m;
      }
      m + rest
  }

  /** `pd.merge(a, b, on=key, how="outer")`: the inner-join pairs, plus every
      row of either side whose key the other side lacks, with the other
      side's cells missing. */
  function OuterJoin<K(!new,==), A(!new), B(!new)>(a: seq<Group<K, A>>, b: seq<Group<K, B>>): (t: seq<Group<K, (Option<A>, Option<B>)>>)
    ensures TableKeys(t) == TableKeys(a) + TableKeys(b)
    ensures forall g :: g in t ==> (g.value.0.Some? ==> Group(g.key, g.value.0.value) in a)
    ensures forall g :: g in t ==> (g.value.0.None? ==> g.key !in TableKeys(a))
    ensures forall g :: g in t ==> (g.value.1.Some? ==> Group(g.key, g.value.1.value) in b)
    ensures forall g :: g in t ==> (g.value.1.None? ==> g.key !in TableKeys(b))
  {
    var l := LeftPart(a, b);
    var r := RightOnly(a, b);
    assert TableKeys(l + r) == TableKeys(l) + TableKeys(r);
    l + r
  }

  /** Against a table with distinct keys, a row has at most one match. */
  lemma {:induction false} MatchesAtMostOne<K(!new), A(!new), B(!new)>(x: Group<K, A>, b: seq<Group<K, B>>)
    requires DistinctKeys(b)
    ensures |Matches(x, b)| <= 1
  {
    if b != [] {
      HeadKeyFresh(b);
      MatchesAtMostOne(x, b[1..]);
    }
  }

  /** Joining two tables with distinct keys gives distinct keys. */
  lemma {:induction false} InnerJoinDistinct<K(!new), A(!new), B(!new)>(a: seq<Group<K, A>>, b: seq<Group<K, B>>)
    requires DistinctKeys(a) && DistinctKeys(b)
    ensures DistinctKeys(InnerJoin(a, b))
  {
    if a != [] {
      HeadKeyFresh(a);
      InnerJoinDistinct(a[1..], b);
      MatchesAtMostOne(a[0], b);
      var m := Matches(a[0], b);
      var rest := InnerJoin(a[1..], b);
      assert forall g :: g in m ==> g.key == a[0].key;
      DistinctConcat(m, rest);
    }
  }

  lemma {:induction false} LeftPartDistinct<K(!new), A(!new), B(!new)>(a: seq<Group<K, A>>, b: seq<Group<K, B>>)
    requires DistinctKeys(a) && DistinctKeys(b)
    ensures DistinctKeys(LeftPart(a, b))
  {
    if a != [] {
      HeadKeyFresh(a);
      LeftPartDistinct(a[1..], b);
      MatchesAtMostOne(a[0], b);
      var m := OuterMatches(a[0], b);
      DistinctConcat(m, LeftPart(a[1..], b));
    }
  }

  lemma {:induction false} RightOnlyDistinct<K(!new), A(!new), B(!new)>(a: seq<Group<K, A>>, b: seq<Group<K, B>>)
    requires DistinctKeys(b)
    ensures DistinctKeys(RightOnly(a, b))
  {
    if b != [] {
      HeadKeyFresh(b);
      RightOnlyDistinct(a, b[1..]);
      var rest := RightOnly(a, b[1..]);
      if Lookup(a, b[0].key).None? {
        DistinctConcat([Group(b[0].key, (None, Some(b[0].value)))], rest);
      }
    }
  }

  /** The outer join of two tables with distinct keys has one row per key. */
  lemma OuterJoinDistinct<K(!new), A(!new), B(!new)>(a: seq<Group<K, A>>, b: seq<Group<K, B>>)
    requires DistinctKeys(a) && DistinctKeys(b)
    ensures DistinctKeys(OuterJoin(a, b))
  {
    LeftPartDistinct(a, b);
    RightOnlyDistinct(a, b);
    DistinctConcat(LeftPart(a, b), RightOnly(a, b));
  }
}
