/** Generic helpers over in-memory row sequences: optional values, the
    outcome of a row-store read, order-preserving filtering, counting,
    summing, first-occurrence key order and per-key tallies. */
module Rows {

  datatype Option<T> = None | Some(value: T)

  /** What a row-store read resolves to: rows (the client may hand back
      `null` for them) or an error carrying its message. */
  datatype Fetch<T> = Fetched(data: Option<seq<T>>) | FetchError(message: string)

  /** `data || []`: a null row set reads as the empty one. */
  function RowsOrEmpty<T>(d: Option<seq<T>>): (r: seq<T>)
    ensures d.Some? ==> r == d.value
    ensures d.None? ==> r == []
  {
    if d.Some? then d.value else []
  }

  /** No value occurs twice. */
  ghost predicate Distinct<T>(s: seq<T>) {
    forall i, j :: 0 <= i < j < |s| ==> s[i] != s[j]
  }

  /** `r` can be obtained from `s` by deleting elements, keeping the order. */
  predicate IsSubseq<T(==)>(r: seq<T>, s: seq<T>)
    decreases |s|
  {
    if r == [] then true
    else if s == [] then false
    else (r[0] == s[0] && IsSubseq(r[1..], s[1..])) || IsSubseq(r, s[1..])
  }

  /** `Array.prototype.filter`: the elements satisfying `p`, in order. */
  function Filter<T>(s: seq<T>, p: T -> bool): (r: seq<T>)
    ensures |r| <= |s|
    ensures forall i :: 0 <= i < |r| ==> p(r[i])
  {
    if s == [] then [] else (if p(s[0]) then [s[0]] else []) + Filter(s[1..], p)
  }

  /** `Array.prototype.map`. */
  function Map<T, U>(s: seq<T>, f: T -> U): (r: seq<U>)
    ensures |r| == |s|
    ensures forall i :: 0 <= i < |s| ==> r[i] == f(s[i])
  {
    seq(|s|, i requires 0 <= i < |s| => f(s[i]))
  }

  /** Number of elements satisfying `p` (`s.filter(p).length`). */
  function Count<T>(s: seq<T>, p: T -> bool): nat {
    |Filter(s, p)|
  }

  /** Sum of a sequence of integers. */
  function Sum(xs: seq<int>): int {
    if xs == [] then 0 else xs[0] + Sum(xs[1..])
  }

  /** Sum of `weight` over the rows (`rows.reduce((s, r) => s + weight(r), 0)`). */
  function SumOf<T>(rows: seq<T>, weight: T -> int): int
    decreases |rows|
  {
    if rows == [] then 0 else SumOf(rows[..|rows| - 1], weight) + weight(rows[|rows| - 1])
  }

  /** The distinct values of `ks` in order of first occurrence: the key
      order of a JavaScript object filled by `obj[k] = ...` in a loop. */
  function Dedup(ks: seq<string>): (r: seq<string>)
    ensures Distinct(r)
    ensures forall k :: k in r <==> k in ks
    decreases |ks|
  {
    if ks == [] then []
    else
      var r := Dedup(ks[..|ks| - 1]);
      if ks[|ks| - 1] in r then r else r + [ks[|ks| - 1]]
  }

  /** Sum of `weight` over the rows whose key is `k`. */
  function Tally<T>(rows: seq<T>, key: T -> string, weight: T -> int, k: string): int
    decreases |rows|
  {
    if rows == [] then 0
    else
      var last := rows[|rows| - 1];
      Tally(rows[..|rows| - 1], key, weight, k) + (if key(last) == k then weight(last) else 0)
  }

  /** The tally of every key in `ks`, in the order of `ks`. */
  function Tallies<T>(rows: seq<T>, key: T -> string, weight: T -> int, ks: seq<string>): (r: seq<int>)
    ensures |r| == |ks|
    ensures forall i :: 0 <= i < |ks| ==> r[i] == Tally(rows, key, weight, ks[i])
  {
    if ks == [] then [] else [Tally(rows, key, weight, ks[0])] + Tallies(rows, key, weight, ks[1..])
  }

  // ---------------------------------------------------------------------
  // Filtering

  /** Filtering keeps exactly the elements satisfying the predicate. */
  lemma {:induction false} FilterMembership<T>(s: seq<T>, p: T -> bool, x: T)
    ensures x in Filter(s, p) <==> x in s && p(x)
  {
    if s != [] {
      FilterMembership(s[1..], p, x);
      assert s == [s[0]] + s[1..];
    }
  }

  lemma {:induction false} SubseqCons<T>(r: seq<T>, x: T, t: seq<T>)
    requires IsSubseq(r, t)
    ensures IsSubseq(r, [x] + t)
  {
    if r != [] {
      assert ([x] + t)[1..] == t;
    }
  }

  /** The result of a filter is an order-preserving subsequence of its input. */
  lemma {:induction false} FilterIsSubseq<T>(s: seq<T>, p: T -> bool)
    ensures IsSubseq(Filter(s, p), s)
  {
    if s != [] {
      FilterIsSubseq(s[1..], p);
      var rest := Filter(s[1..], p);
      if p(s[0]) {
        assert Filter(s, p) == [s[0]] + rest;
        assert ([s[0]] + rest)[1..] == rest;
      } else {
        assert Filter(s, p) == rest;
        assert s == [s[0]] + s[1..];
        SubseqCons(rest, s[0], s[1..]);
      }
    }
  }

  /** Every order-preserving subsequence of `s` whose elements all satisfy
      `p` is a subsequence of `Filter(s, p)`: the filter is the largest one. */
  lemma {:induction false} FilterIsLargest<T>(r: seq<T>, s: seq<T>, p: T -> bool)
    requires IsSubseq(r, s)
    requires forall i :: 0 <= i < |r| ==> p(r[i])
    ensures IsSubseq(r, Filter(s, p))
    decreases |s|
  {
    if r != [] {
      assert s != [];
      var rest := Filter(s[1..], p);
      if r[0] == s[0] && IsSubseq(r[1..], s[1..]) {
        FilterIsLargest(r[1..], s[1..], p);
        assert p(s[0]);
        assert Filter(s, p) == [s[0]] + rest;
        assert ([s[0]] + rest)[1..] == rest;
      } else {
        FilterIsLargest(r, s[1..], p);
        if p(s[0]) {
          assert Filter(s, p) == [s[0]] + rest;
          SubseqCons(r, s[0], rest);
        } else {
          assert Filter(s, p) == rest;
        }
      }
    }
  }

  /** A subsequence as long as the sequence is the sequence itself. */
  lemma {:induction false} SubseqSameLength<T>(r: seq<T>, s: seq<T>)
    requires IsSubseq(r, s) && |r| == |s|
    ensures r == s
    decreases |s|
  {
    if r != [] {
      if r[0] == s[0] && IsSubseq(r[1..], s[1..]) {
        SubseqSameLength(r[1..], s[1..]);
        assert r == [r[0]] + r[1..] && s == [s[0]] + s[1..];
      } else {
        SubseqShorter(r, s[1..]);
        assert false;
      }
    }
  }

  lemma {:induction false} SubseqShorter<T>(r: seq<T>, s: seq<T>)
    requires IsSubseq(r, s)
    ensures |r| <= |s|
    decreases |s|
  {
    if r != [] {
      if r[0] == s[0] && IsSubseq(r[1..], s[1..]) {
        SubseqShorter(r[1..], s[1..]);
      } else {
        SubseqShorter(r, s[1..]);
      }
    }
  }

  /** A subsequence whose elements all satisfy `p`, and that has as many
      elements as there are in `s` satisfying `p`, is `Filter(s, p)`.
      Filtering is therefore THE subsequence of matching rows. */
  lemma FilterUnique<T>(r: seq<T>, s: seq<T>, p: T -> bool)
    requires IsSubseq(r, s)
    requires forall i :: 0 <= i < |r| ==> p(r[i])
    requires |r| == Count(s, p)
    ensures r == Filter(s, p)
  {
    FilterIsLargest(r, s, p);
    SubseqSameLength(r, Filter(s, p));
  }

  /** A predicate every element satisfies filters nothing out. */
  lemma {:induction false} FilterAll<T>(s: seq<T>, p: T -> bool)
    requires forall i :: 0 <= i < |s| ==> p(s[i])
    ensures Filter(s, p) == s
  {
    if s != [] {
      FilterAll(s[1..], p);
      assert s == [s[0]] + s[1..];
    }
  }

  /** Predicates that agree everywhere filter alike. */
  lemma {:induction false} FilterAgrees<T>(s: seq<T>, p: T -> bool, q: T -> bool)
    requires forall x :: p(x) == q(x)
    ensures Filter(s, p) == Filter(s, q)
  {
    if s != [] {
      FilterAgrees(s[1..], p, q);
    }
  }

  /** The two halves of a concatenation are recovered by slicing. */
  lemma SplitAppend<T>(x: seq<T>, y: seq<T>)
    ensures (x + y)[..|x|] == x && (x + y)[|x|..] == y
  {
  }

  /** Mapping distributes over concatenation. */
  lemma MapAppend<T, U>(a: seq<T>, b: seq<T>, f: T -> U)
    ensures Map(a + b, f) == Map(a, f) + Map(b, f)
  {
  }

  /** Two successive filters are one filter by the conjunction. */
  lemma {:induction false} FilterFilter<T>(s: seq<T>, p: T -> bool, q: T -> bool, pq: T -> bool)
    requires forall x :: pq(x) == (p(x) && q(x))
    ensures Filter(Filter(s, p), q) == Filter(s, pq)
  {
    if s != [] {
      FilterFilter(s[1..], p, q, pq);
      var rest := Filter(s[1..], p);
      if p(s[0]) {
        assert Filter(s, p) == [s[0]] + rest;
        assert ([s[0]] + rest)[1..] == rest;
        assert Filter(Filter(s, p), q) == (if q(s[0]) then [s[0]] else []) + Filter(rest, q);
      } else {
        assert Filter(s, p) == rest;
      }
    }
  }

  /** Filtering distributes over concatenation. */
  lemma {:induction false} FilterAppend<T>(a: seq<T>, b: seq<T>, p: T -> bool)
    ensures Filter(a + b, p) == Filter(a, p) + Filter(b, p)
  {
    if a != [] {
      FilterAppend(a[1..], b, p);
      assert (a + b)[1..] == a[1..] + b;
    } else {
      assert a + b == b;
    }
  }

  /** Filtering, mapping and filtering again, one element at a time. */
  lemma FilterMapFilterCons<T, U>(s: seq<T>, p: T -> bool, f: T -> U, q: U -> bool)
    requires s != []
    ensures Filter(Map(Filter(s, p), f), q)
      == (if p(s[0]) && q(f(s[0])) then [f(s[0])] else []) + Filter(Map(Filter(s[1..], p), f), q)
  {
    var head := if p(s[0]) then [s[0]] else [];
    var t := Filter(s[1..], p);
    assert Filter(s, p) == head + t;
    MapAppend(head, t, f);
    FilterAppend(Map(head, f), Map(t, f), q);
    if p(s[0]) {
      assert Map(head, f) == [f(s[0])];
      assert [f(s[0])][1..] == [];
    } else {
      assert Map(head, f) == [];
    }
  }

  /** When every element passes both filters, filtering, mapping and
      filtering again is just the mapping. */
  lemma {:induction false} FilterMapFilterAll<T, U>(s: seq<T>, p: T -> bool, f: T -> U, q: U -> bool, r: seq<U>)
    requires |s| == |r|
    requires forall i :: 0 <= i < |s| ==> p(s[i]) && f(s[i]) == r[i] && q(r[i])
    ensures Filter(Map(Filter(s, p), f), q) == r
  {
    if s != [] {
      var t, u := s[1..], r[1..];
      forall i | 0 <= i < |t| ensures p(t[i]) && f(t[i]) == u[i] && q(u[i]) {
        assert t[i] == s[i + 1] && u[i] == r[i + 1];
      }
      FilterMapFilterAll(t, p, f, q, u);
      FilterMapFilterCons(s, p, f, q);
      assert r == [r[0]] + u;
    }
  }

  /** Every element either satisfies `p` or its negation. */
  lemma {:induction false} CountComplement<T>(s: seq<T>, p: T -> bool, notP: T -> bool)
    requires forall x :: notP(x) == !p(x)
    ensures Count(s, p) + Count(s, notP) == |s|
  {
    if s != [] {
      CountComplement(s[1..], p, notP);
    }
  }

  /** Counting by a stronger predicate gives no more. */
  lemma {:induction false} CountMonotone<T>(s: seq<T>, p: T -> bool, q: T -> bool)
    requires forall x :: p(x) ==> q(x)
    ensures Count(s, p) <= Count(s, q)
  {
    if s != [] {
      CountMonotone(s[1..], p, q);
    }
  }

  // ---------------------------------------------------------------------
  // Sums and tallies

  lemma {:induction false} SumAppend(a: seq<int>, b: seq<int>)
    ensures Sum(a + b) == Sum(a) + Sum(b)
  {
    if a == [] {
      assert a + b == b;
    } else {
      SumAppend(a[1..], b);
      assert (a + b)[1..] == a[1..] + b;
    }
  }

  lemma {:induction false} SumOfAppend<T>(a: seq<T>, b: seq<T>, weight: T -> int)
    ensures SumOf(a + b, weight) == SumOf(a, weight) + SumOf(b, weight)
    decreases |b|
  {
    if b == [] {
      assert a + b == a;
    } else {
      SumOfAppend(a, b[..|b| - 1], weight);
      assert (a + b)[..|a + b| - 1] == a + b[..|b| - 1];
    }
  }

  /** With non-negative weights, the weight of the rows a filter keeps is
      between zero and the weight of all rows. */
  lemma {:induction false} SumOfFilterBounds<T>(s: seq<T>, p: T -> bool, weight: T -> int)
    requires forall x :: weight(x) >= 0
    ensures 0 <= SumOf(Filter(s, p), weight) <= SumOf(s, weight)
  {
    if s != [] {
      SumOfFilterBounds(s[1..], p, weight);
      var head := if p(s[0]) then [s[0]] else [];
      SumOfAppend(head, Filter(s[1..], p), weight);
      SumOfAppend([s[0]], s[1..], weight);
      assert s == [s[0]] + s[1..];
      assert SumOf([s[0]], weight) == weight(s[0]);
      if p(s[0]) {
        assert SumOf(head, weight) == weight(s[0]);
      } else {
        assert SumOf(head, weight) == 0;
      }
    }
  }

  /** A weight of one per row sums to the number of rows. */
  lemma {:induction false} SumOfOnes<T>(rows: seq<T>, one: T -> int)
    requires forall x :: one(x) == 1
    ensures SumOf(rows, one) == |rows|
    decreases |rows|
  {
    if rows != [] {
      SumOfOnes(rows[..|rows| - 1], one);
    }
  }

  /** Sum over `ks` of "`w` where the key is `k`". */
  function Hit(ks: seq<string>, k: string, w: int): int {
    if ks == [] then 0 else (if ks[0] == k then w else 0) + Hit(ks[1..], k, w)
  }

  lemma {:induction false} HitDistinct(ks: seq<string>, k: string, w: int)
    requires Distinct(ks)
    ensures Hit(ks, k, w) == if k in ks then w else 0
  {
    if ks != [] {
      HitDistinct(ks[1..], k, w);
      if ks[0] == k {
        assert k !in ks[1..] by {
          forall j | 0 <= j < |ks[1..]| ensures ks[1..][j] != k {
            assert ks[1..][j] == ks[j + 1];
          }
        }
      }
      assert ks == [ks[0]] + ks[1..];
    }
  }

  lemma {:induction false} TalliesSnoc<T>(init: seq<T>, x: T, key: T -> string, weight: T -> int, ks: seq<string>)
    ensures Sum(Tallies(init + [x], key, weight, ks))
         == Sum(Tallies(init, key, weight, ks)) + Hit(ks, key(x), weight(x))
  {
    if ks != [] {
      TalliesSnoc(init, x, key, weight, ks[1..]);
      assert (init + [x])[..|init + [x]| - 1] == init;
    }
  }

  lemma {:induction false} TalliesOfNothing<T>(key: T -> string, weight: T -> int, ks: seq<string>)
    ensures Sum(Tallies([], key, weight, ks)) == 0
  {
    if ks != [] {
      TalliesOfNothing(key, weight, ks[1..]);
    }
  }

  /** Splitting rows by key and summing the per-key tallies over a list of
      distinct keys that covers every row's key gives the total weight:
      the buckets of a group-by partition the rows. */
  lemma {:induction false} PartitionSum<T>(rows: seq<T>, key: T -> string, weight: T -> int, ks: seq<string>)
    requires Distinct(ks)
    requires forall i :: 0 <= i < |rows| ==> key(rows[i]) in ks
    ensures Sum(Tallies(rows, key, weight, ks)) == SumOf(rows, weight)
    decreases |rows|
  {
    if rows == [] {
      TalliesOfNothing(key, weight, ks);
    } else {
      var init, x := rows[..|rows| - 1], rows[|rows| - 1];
      assert rows == init + [x];
      PartitionSum(init, key, weight, ks);
      TalliesSnoc(init, x, key, weight, ks);
      HitDistinct(ks, key(x), weight(x));
    }
  }

  /** With a weight of one per row, a key that occurs has a tally of at
      least one. */
  lemma {:induction false} TallyPositive<T>(rows: seq<T>, key: T -> string, one: T -> int, k: string)
    requires forall x :: one(x) == 1
    requires k in Map(rows, key)
    ensures Tally(rows, key, one, k) >= 1
    decreases |rows|
  {
    var init := rows[..|rows| - 1];
    if key(rows[|rows| - 1]) == k {
      TallyNonNegative(init, key, one, k);
    } else {
      var i :| 0 <= i < |rows| && Map(rows, key)[i] == k;
      assert init[i] == rows[i];
      assert k in Map(init, key) by { assert Map(init, key)[i] == k; }
      TallyPositive(init, key, one, k);
    }
  }

  lemma {:induction false} TallyNonNegative<T>(rows: seq<T>, key: T -> string, one: T -> int, k: string)
    requires forall x :: one(x) == 1
    ensures Tally(rows, key, one, k) >= 0
    decreases |rows|
  {
    if rows != [] {
      TallyNonNegative(rows[..|rows| - 1], key, one, k);
    }
  }

  /** Rows with key `k` that all weigh nothing give `k` a tally of zero; in
      particular a key that does not occur. */
  lemma {:induction false} TallyZero<T>(rows: seq<T>, key: T -> string, weight: T -> int, k: string)
    requires forall i :: 0 <= i < |rows| && key(rows[i]) == k ==> weight(rows[i]) == 0
    ensures Tally(rows, key, weight, k) == 0
    decreases |rows|
  {
    if rows != [] {
      var init := rows[..|rows| - 1];
      forall i | 0 <= i < |init| && key(init[i]) == k ensures weight(init[i]) == 0 {
        assert init[i] == rows[i];
      }
      TallyZero(init, key, weight, k);
    }
  }

  /** `order` and `acc` are what grouping `rows` by `key` has built: the
      keys in first-occurrence order, and the accumulated weight of each. */
  ghost predicate Grouped<T>(rows: seq<T>, key: T -> string, weight: T -> int,
                             order: seq<string>, acc: map<string, int>) {
    && order == Dedup(Map(rows, key))
    && (forall k :: k in acc <==> k in order)
    && (forall k :: k in acc ==> acc[k] == Tally(rows, key, weight, k))
  }

  /** The tallies of a prefix one row longer. */
  lemma TallyStep<T>(rows: seq<T>, i: nat, key: T -> string, weight: T -> int)
    requires i < |rows|
    ensures forall k :: Tally(rows[..i + 1], key, weight, k)
                     == Tally(rows[..i], key, weight, k) + (if key(rows[i]) == k then weight(rows[i]) else 0)
  {
    assert rows[..i + 1][..i] == rows[..i];
  }

  /** The first-occurrence key order of a prefix one row longer. */
  lemma DedupStep<T>(rows: seq<T>, i: nat, key: T -> string)
    requires i < |rows|
    ensures Dedup(Map(rows[..i + 1], key))
         == if key(rows[i]) in Dedup(Map(rows[..i], key)) then Dedup(Map(rows[..i], key))
            else Dedup(Map(rows[..i], key)) + [key(rows[i])]
  {
    var ks := Map(rows[..i + 1], key);
    assert ks[..|ks| - 1] == Map(rows[..i], key);
  }

  /** A key not among a prefix's keys has a zero tally there. */
  lemma TallyUnseen<T>(rows: seq<T>, key: T -> string, weight: T -> int, k: string)
    requires k !in Map(rows, key)
    ensures Tally(rows, key, weight, k) == 0
  {
    forall j | 0 <= j < |rows| ensures key(rows[j]) != k {
      assert Map(rows, key)[j] == key(rows[j]);
    }
    TallyZero(rows, key, weight, k);
  }

  /** Taking one more row into a grouping. */
  /** What one pass of the grouping loop does to the key order and the
      accumulated weights. */
  ghost predicate GroupUpdate<T>(r: T, key: T -> string, weight: T -> int,
                                 order: seq<string>, acc: map<string, int>,
                                 order': seq<string>, acc': map<string, int>) {
    var k := key(r);
    && order' == (if k in acc then order else order + [k])
    && acc' == acc[k := (if k in acc then acc[k] else 0) + weight(r)]
  }

  /** The key order of a prefix one row longer. */
  lemma GroupedOrderStep<T>(rows: seq<T>, i: nat, key: T -> string, weight: T -> int,
                            order: seq<string>, acc: map<string, int>, order': seq<string>, acc': map<string, int>)
    requires i < |rows|
    requires order == Dedup(Map(rows[..i], key))
    requires forall k :: k in acc <==> k in order
    requires GroupUpdate(rows[i], key, weight, order, acc, order', acc')
    ensures order' == Dedup(Map(rows[..i + 1], key))
    ensures forall k :: k in acc' <==> k in order'
    ensures key(rows[i]) !in acc ==> key(rows[i]) !in Map(rows[..i], key)
  {
    DedupStep(rows, i, key);
  }

  /** The accumulated weights of a prefix one row longer. */
  lemma GroupedValuesStep<T>(rows: seq<T>, i: nat, key: T -> string, weight: T -> int,
                             order: seq<string>, acc: map<string, int>, order': seq<string>, acc': map<string, int>)
    requires i < |rows|
    requires forall k :: k in acc ==> acc[k] == Tally(rows[..i], key, weight, k)
    requires key(rows[i]) !in acc ==> key(rows[i]) !in Map(rows[..i], key)
    requires GroupUpdate(rows[i], key, weight, order, acc, order', acc')
    ensures forall k :: k in acc' ==> acc'[k] == Tally(rows[..i + 1], key, weight, k)
  {
    var k := key(rows[i]);
    TallyStep(rows, i, key, weight);
    if k !in acc {
      TallyUnseen(rows[..i], key, weight, k);
    }
  }

  lemma GroupedStep<T>(rows: seq<T>, i: nat, key: T -> string, weight: T -> int,
                       order: seq<string>, acc: map<string, int>, order': seq<string>, acc': map<string, int>)
    requires i < |rows|
    requires Grouped(rows[..i], key, weight, order, acc)
    requires GroupUpdate(rows[i], key, weight, order, acc, order', acc')
    ensures Grouped(rows[..i + 1], key, weight, order', acc')
  {
    GroupedOrderStep(rows, i, key, weight, order, acc, order', acc');
    GroupedValuesStep(rows, i, key, weight, order, acc, order', acc');
  }

  /** `rows.forEach(r => { acc[key(r)] = (acc[key(r)] || 0) + weight(r) })`
      on an empty object: the keys in the order the object acquires them,
      and the accumulated weight of each. */
  method GroupTally<T>(rows: seq<T>, key: T -> string, weight: T -> int)
    returns (order: seq<string>, acc: map<string, int>)
    ensures order == Dedup(Map(rows, key))
    ensures forall k :: k in acc <==> k in Map(rows, key)
    ensures forall k :: k in acc ==> acc[k] == Tally(rows, key, weight, k)
  {
    order := [];
    acc := map[];
    var i := 0;
    GroupedEmpty(rows, key, weight);
    while i < |rows|
      invariant 0 <= i <= |rows|
      invariant Grouped(rows[..i], key, weight, order, acc)
    {
      var k := key(rows[i]);
      ghost var order0, acc0 := order, acc;
      if k !in acc {
        order := order + [k];
        acc := acc[k := 0];
      }
      acc := acc[k := acc[k] + weight(rows[i])];
      GroupedStep(rows, i, key, weight, order0, acc0, order, acc);
      i := i + 1;
    }
    GroupedKeys(rows, key, weight, order, acc);
  }

  lemma GroupedEmpty<T>(rows: seq<T>, key: T -> string, weight: T -> int)
    ensures Grouped(rows[..0], key, weight, [], map[])
  {
    assert Map(rows[..0], key) == [];
  }

  lemma GroupedKeys<T>(rows: seq<T>, key: T -> string, weight: T -> int,
                       order: seq<string>, acc: map<string, int>)
    requires Grouped(rows[..|rows|], key, weight, order, acc)
    ensures order == Dedup(Map(rows, key))
    ensures forall k :: k in acc <==> k in Map(rows, key)
    ensures forall k :: k in acc ==> acc[k] == Tally(rows, key, weight, k)
  {
    assert rows[..|rows|] == rows;
  }

  /** The per-key tallies of a longer key list end with the new key's. */
  lemma SumTalliesStep<T>(rows: seq<T>, key: T -> string, weight: T -> int, ks: seq<string>, i: nat)
    requires i < |ks|
    ensures Sum(Tallies(rows, key, weight, ks[..i + 1]))
         == Sum(Tallies(rows, key, weight, ks[..i])) + Tally(rows, key, weight, ks[i])
  {
    assert Tallies(rows, key, weight, ks[..i + 1])
        == Tallies(rows, key, weight, ks[..i]) + [Tally(rows, key, weight, ks[i])];
    SumAppend(Tallies(rows, key, weight, ks[..i]), [Tally(rows, key, weight, ks[i])]);
  }

  /** A 0/1 weight marking the rows satisfying `p` sums to their number. */
  lemma {:induction false} SumOfIndicator<T>(rows: seq<T>, p: T -> bool, w: T -> int)
    requires forall x :: w(x) == if p(x) then 1 else 0
    ensures SumOf(rows, w) == Count(rows, p)
  {
    if rows != [] {
      SumOfIndicator(rows[1..], p, w);
      SumOfAppend([rows[0]], rows[1..], w);
      assert rows == [rows[0]] + rows[1..];
      assert SumOf([rows[0]], w) == w(rows[0]);
    }
  }

  /** A list of distinct strings drawn from a set is no longer than the set. */
  lemma {:induction false} DistinctCard(s: seq<string>, names: set<string>)
    requires Distinct(s)
    requires forall i :: 0 <= i < |s| ==> s[i] in names
    ensures |s| <= |names|
  {
    if s != [] {
      var t := s[1..];
      forall i | 0 <= i < |t| ensures t[i] in names - {s[0]} {
        assert t[i] == s[i + 1];
      }
      DistinctCard(t, names - {s[0]});
    }
  }

  /** A key occurs among the keys of the filtered rows exactly when some
      row satisfying the filter has it. */
  lemma KeysOfFilter<T>(s: seq<T>, p: T -> bool, key: T -> string, k: string)
    ensures k in Map(Filter(s, p), key) <==> exists i :: 0 <= i < |s| && p(s[i]) && key(s[i]) == k
  {
    var f := Filter(s, p);
    if k in Map(f, key) {
      var j :| 0 <= j < |f| && Map(f, key)[j] == k;
      FilterMembership(s, p, f[j]);
      var i :| 0 <= i < |s| && s[i] == f[j];
      assert p(s[i]) && key(s[i]) == k;
    }
    if exists i :: 0 <= i < |s| && p(s[i]) && key(s[i]) == k {
      var i :| 0 <= i < |s| && p(s[i]) && key(s[i]) == k;
      FilterMembership(s, p, s[i]);
      var j :| 0 <= j < |f| && f[j] == s[i];
      assert Map(f, key)[j] == k;
    }
  }

  /** Each element of a sequence within bounds keeps its sum within the
      bounds times the length. */
  lemma {:induction false} SumBounds(xs: seq<int>, lo: int, hi: int)
    requires forall i :: 0 <= i < |xs| ==> lo <= xs[i] <= hi
    ensures lo * |xs| <= Sum(xs) <= hi * |xs|
  {
    if xs != [] {
      SumBounds(xs[1..], lo, hi);
    }
  }

  /** Weights within bounds keep their sum within the bounds times the
      number of rows. */
  lemma {:induction false} SumOfBounds<T>(rows: seq<T>, weight: T -> int, lo: int, hi: int)
    requires forall i :: 0 <= i < |rows| ==> lo <= weight(rows[i]) <= hi
    ensures lo * |rows| <= SumOf(rows, weight) <= hi * |rows|
    decreases |rows|
  {
    if rows != [] {
      SumOfBounds(rows[..|rows| - 1], weight, lo, hi);
    }
  }

  /** Summing the per-key tallies over any duplicate-free list of exactly
      the keys that occur gives the total weight. */
  lemma KeyListTotal<T>(rows: seq<T>, key: T -> string, weight: T -> int, ks: seq<string>)
    requires Distinct(ks)
    requires forall k :: k in ks <==> k in Map(rows, key)
    ensures Sum(Tallies(rows, key, weight, ks)) == SumOf(rows, weight)
  {
    forall j | 0 <= j < |rows| ensures key(rows[j]) in ks {
      assert Map(rows, key)[j] == key(rows[j]);
    }
    PartitionSum(rows, key, weight, ks);
  }

  /** The sum of a prefix one element longer. */
  lemma SumPrefixStep(xs: seq<int>, i: nat)
    requires i < |xs|
    ensures Sum(xs[..i + 1]) == Sum(xs[..i]) + xs[i]
  {
    assert xs[..i + 1] == xs[..i] + [xs[i]];
    SumAppend(xs[..i], [xs[i]]);
  }
}
