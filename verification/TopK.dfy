/**
 Feature extraction keeps extreme wavelet coefficients: two bounded arrays of the lowest and the highest values,
 and the selection they make. The wavelet output is an arbitrary array.
 */
module TopK {
  /** The order of one of the two arrays: ascending for the lowest values, descending for the highest. */
  predicate Precedes(lowest: bool, a: real, b: real) {
    if lowest then a < b else a > b
  }

  ghost predicate Ordered(lowest: bool, s: seq<real>) {
    forall i, j :: 0 <= i < j < |s| ==> !Precedes(lowest, s[j], s[i])
  }

  function Insert(lowest: bool, s: seq<real>, x: real): (r: seq<real>)
    ensures |r| == |s| + 1
  {
    if s == [] then [x]
    else if Precedes(lowest, x, s[0]) then [x] + s
    else [s[0]] + Insert(lowest, s[1..], x)
  }

  function Sort(lowest: bool, s: seq<real>): (r: seq<real>)
    ensures |r| == |s|
  {
    if s == [] then [] else Insert(lowest, Sort(lowest, s[..|s| - 1]), s[|s| - 1])
  }

  lemma {:induction false} InsertKeepsElements(lowest: bool, s: seq<real>, x: real)
    ensures |Insert(lowest, s, x)| == |s| + 1
    ensures multiset(Insert(lowest, s, x)) == multiset(s) + multiset{x}
  {
    if s != [] && !Precedes(lowest, x, s[0]) {
      InsertKeepsElements(lowest, s[1..], x);
      assert s == [s[0]] + s[1..];
    }
  }

  lemma {:induction false} InsertKeepsOrder(lowest: bool, s: seq<real>, x: real)
    requires Ordered(lowest, s)
    ensures Ordered(lowest, Insert(lowest, s, x))
  {
    if s != [] && !Precedes(lowest, x, s[0]) {
      InsertKeepsOrder(lowest, s[1..], x);
      InsertKeepsElements(lowest, s[1..], x);
      var rest := Insert(lowest, s[1..], x);
      forall k | 0 <= k < |rest| ensures !Precedes(lowest, rest[k], s[0]) {
        assert rest[k] in multiset(rest);
        assert rest[k] == x || rest[k] in s[1..];
      }
    }
  }

  lemma {:induction false} SortSorts(lowest: bool, s: seq<real>)
    ensures |Sort(lowest, s)| == |s| && Ordered(lowest, Sort(lowest, s))
    ensures multiset(Sort(lowest, s)) == multiset(s)
  {
    if s != [] {
      var init := s[..|s| - 1];
      SortSorts(lowest, init);
      InsertKeepsElements(lowest, Sort(lowest, init), s[|s| - 1]);
      InsertKeepsOrder(lowest, Sort(lowest, init), s[|s| - 1]);
      assert s == init + [s[|s| - 1]];
    }
  }

  /** Re-inserting the head of an ordered sequence gives the sequence back. */
  lemma {:induction false} InsertHead(lowest: bool, s: seq<real>)
    requires s != [] && Ordered(lowest, s)
    ensures Insert(lowest, s[1..], s[0]) == s
  {
    if |s| > 1 && !Precedes(lowest, s[0], s[1]) {
      assert s[0] == s[1];
      InsertHead(lowest, s[1..]);
      assert s[1..][1..] == s[2..];
    }
  }

  /** The first k elements after an insertion depend only on the first k elements before it. */
  lemma {:induction false} TakeInsert(lowest: bool, s: seq<real>, k: nat, x: real)
    requires k <= |s| && Ordered(lowest, s)
    ensures |Insert(lowest, s, x)| == |s| + 1 && |Insert(lowest, s[..k], x)| == k + 1
    ensures Insert(lowest, s, x)[..k] == Insert(lowest, s[..k], x)[..k]
  {
    InsertKeepsElements(lowest, s, x);
    InsertKeepsElements(lowest, s[..k], x);
    if k > 0 && !Precedes(lowest, x, s[0]) {
      TakeInsert(lowest, s[1..], k - 1, x);
      assert s[..k][1..] == s[1..][..k - 1];
    }
  }

  /** What does not precede the last element is inserted after it. */
  lemma {:induction false} InsertLast(lowest: bool, s: seq<real>, x: real)
    requires s != [] && Ordered(lowest, s) && !Precedes(lowest, x, s[|s| - 1])
    ensures Insert(lowest, s, x) == s + [x]
  {
    if |s| > 1 {
      assert !Precedes(lowest, x, s[0]);
      InsertLast(lowest, s[1..], x);
    }
  }

  /** `best` holds the extreme elements of `pool`: in order, and nothing left out precedes the last. */
  ghost predicate IsExtreme(lowest: bool, best: seq<real>, pool: seq<real>) {
    && Ordered(lowest, best)
    && multiset(best) <= multiset(pool)
    && forall x :: x in multiset(pool) - multiset(best) ==> best == [] || !Precedes(lowest, x, best[|best| - 1])
  }

  lemma {:induction false} TakeOfSortIsExtreme(lowest: bool, pool: seq<real>, k: nat)
    requires k <= |pool|
    ensures |Sort(lowest, pool)| == |pool|
    ensures IsExtreme(lowest, Sort(lowest, pool)[..k], pool)
  {
    SortSorts(lowest, pool);
    var sorted := Sort(lowest, pool);
    assert sorted == sorted[..k] + sorted[k..];
    forall x | x in multiset(pool) - multiset(sorted[..k]) ensures k == 0 || !Precedes(lowest, x, sorted[k - 1]) {
      assert x in multiset(sorted[k..]);
    }
  }

  // ---------- the bounded arrays ----------

  /** One pass of the insertion loop: the smaller of the two stays, the other one is carried on. */
  lemma {:induction false} CarryOn(lowest: bool, s: seq<real>, c: real)
    requires s != [] && Ordered(lowest, s)
    ensures Insert(lowest, s, c) ==
              if Precedes(lowest, c, s[0]) then [c] + Insert(lowest, s[1..], s[0])
              else [s[0]] + Insert(lowest, s[1..], c)
  {
    if Precedes(lowest, c, s[0]) { InsertHead(lowest, s); }
  }

  lemma {:induction false} Regroup(a: seq<real>, x: real, b: seq<real>)
    ensures a + ([x] + b) == (a + [x]) + b
  {
  }

  /** The guarded insertion into one array. */
  method BoundedInsert(best: array<real>, lowest: bool, x: real)
    requires best.Length > 0 && Ordered(lowest, best[..])
    modifies best
    ensures |Insert(lowest, old(best[..]), x)| == best.Length + 1
    ensures best[..] == Insert(lowest, old(best[..]), x)[..best.Length]
  {
    InsertKeepsElements(lowest, best[..], x);
    if Precedes(lowest, x, best[best.Length - 1]) {
      Bubble(best, lowest, x);
    } else {
      InsertLast(lowest, best[..], x);
    }
  }

  /** The insertion loop: `c` is the value carried on. */
  method Bubble(best: array<real>, lowest: bool, x: real)
    requires Ordered(lowest, best[..])
    modifies best
    ensures best[..] <= Insert(lowest, old(best[..]), x)
  {
    ghost var before := best[..];
    ghost var after := Insert(lowest, before, x);
    var c := x;
    assert before[0..] == before;
    for j := 0 to best.Length
      invariant best[j..] == before[j..]
      invariant after == best[..j] + Insert(lowest, before[j..], c)
    {
      assert best[j] == best[j..][0] == before[j] && before[j..][1..] == before[j + 1..];
      ghost var head, stays, carried :=
        best[..j], if Precedes(lowest, c, best[j]) then c else best[j],
        if Precedes(lowest, c, best[j]) then best[j] else c;
      CarryOn(lowest, before[j..], c);
      Regroup(head, stays, Insert(lowest, before[j + 1..], carried));
      if Precedes(lowest, c, best[j]) {
        best[j], c := c, best[j];
      }
      assert best[..j + 1] == head + [stays];
    }
  }

  function Zeros(k: nat): seq<real> {
    seq(k, _ => 0.0)
  }

  lemma {:induction false} SortZeros(lowest: bool, k: nat)
    ensures Sort(lowest, Zeros(k)) == Zeros(k)
  {
    if k > 0 {
      SortZeros(lowest, k - 1);
      assert Zeros(k)[..k - 1] == Zeros(k - 1);
      if k > 1 { InsertLast(lowest, Zeros(k - 1), 0.0); }
    }
  }

  /** The bounded array after `d`: the first elements of the sorted pool. */
  ghost predicate Keeps(best: seq<real>, lowest: bool, d: seq<real>)
    requires best != []
  {
    |Sort(lowest, Zeros(|best|) + d)| == |best| + |d| && best == Sort(lowest, Zeros(|best|) + d)[..|best|]
  }

  lemma {:induction false} KeepsOneMore(best: seq<real>, lowest: bool, d: seq<real>, x: real)
    requires best != [] && Keeps(best, lowest, d)
    ensures Ordered(lowest, best) && |Insert(lowest, best, x)| == |best| + 1
    ensures Keeps(Insert(lowest, best, x)[..|best|], lowest, d + [x])
  {
    var pool := Zeros(|best|) + d;
    SortSorts(lowest, pool);
    SortSorts(lowest, pool + [x]);
    TakeInsert(lowest, Sort(lowest, pool), |best|, x);
    assert (pool + [x])[..|pool|] == pool;
    assert Zeros(|best|) + (d + [x]) == pool + [x];
  }

  method KeepOne(best: array<real>, lowest: bool, ghost d: seq<real>, x: real)
    requires best.Length > 0 && Keeps(best[..], lowest, d)
    modifies best
    ensures Keeps(best[..], lowest, d + [x])
  {
    KeepsOneMore(best[..], lowest, d, x);
    BoundedInsert(best, lowest, x);
  }

  /** The last of the `m + 1` lowest or highest values among `d` and as many zeros. */
  function Threshold(lowest: bool, d: seq<real>, m: nat): real {
    Sort(lowest, Zeros(m + 1) + d)[m]
  }

  lemma {:induction false} KeepsNothing(lowest: bool, k: nat)
    requires k > 0
    ensures Keeps(Zeros(k), lowest, [])
  {
    SortZeros(lowest, k);
    assert Zeros(k) + [] == Zeros(k);
  }

  lemma {:induction false} LastKept(best: seq<real>, lowest: bool, d: seq<real>)
    requires best != [] && Keeps(best, lowest, d)
    ensures best[|best| - 1] == Threshold(lowest, d, |best| - 1)
  {
  }

  method NoneKept(lowest: bool, k: nat) returns (best: array<real>)
    requires k > 0
    ensures fresh(best) && best.Length == k && Keeps(best[..], lowest, [])
  {
    best := new real[k](_ => 0.0);
    assert best[..] == Zeros(k);
    KeepsNothing(lowest, k);
  }

  /** Coefficient `i` goes into both arrays. */
  method KeepBoth(mins: array<real>, maxs: array<real>, d: seq<real>, i: nat)
    requires mins != maxs && mins.Length > 0 && maxs.Length > 0 && i < |d|
    requires Keeps(mins[..], true, d[..i]) && Keeps(maxs[..], false, d[..i])
    modifies mins, maxs
    ensures Keeps(mins[..], true, d[..i + 1]) && Keeps(maxs[..], false, d[..i + 1])
  {
    assert d[..i + 1] == d[..i] + [d[i]];
    KeepOne(mins, true, d[..i], d[i]);
    KeepOne(maxs, false, d[..i], d[i]);
  }

  /** The two thresholds: the last of the lowest and the last of the highest values kept. */
  method Thresholds(d: seq<real>, midSize: nat) returns (lo: real, hi: real)
    ensures lo == Threshold(true, d, midSize) && hi == Threshold(false, d, midSize)
  {
    var mins := NoneKept(true, midSize + 1);
    var maxs := NoneKept(false, midSize + 1);
    for i := 0 to |d|
      invariant Keeps(mins[..], true, d[..i])
      invariant Keeps(maxs[..], false, d[..i])
    {
      KeepBoth(mins, maxs, d, i);
    }
    assert d[..|d|] == d;
    lo, hi := mins[midSize], maxs[midSize];
    LastKept(mins[..], true, d);
    LastKept(maxs[..], false, d);
  }

  // ---------- the selection ----------

  /** The coefficients at or beyond a threshold, in their arranged order. */
  function Selected(arranged: seq<real>, lo: real, hi: real): seq<real> {
    if arranged == [] then []
    else
      var x := arranged[|arranged| - 1];
      Selected(arranged[..|arranged| - 1], lo, hi) + if x <= lo || x >= hi then [x] else []
  }

  /** Every coefficient at or beyond a threshold is selected as often as it is there, and no other. */
  lemma {:induction false} SelectedAre(arranged: seq<real>, lo: real, hi: real, x: real)
    ensures multiset(Selected(arranged, lo, hi))[x] == if x <= lo || x >= hi then multiset(arranged)[x] else 0
  {
    if arranged != [] {
      var init := arranged[..|arranged| - 1];
      SelectedAre(init, lo, hi, x);
      assert arranged == init + [arranged[|arranged| - 1]];
    }
  }

  /** ... in the order of the coefficients. */
  lemma {:induction false} SelectedInOrder(before: seq<real>, after: seq<real>, lo: real, hi: real)
    ensures Selected(before + after, lo, hi) == Selected(before, lo, hi) + Selected(after, lo, hi)
  {
    if after == [] {
      assert before + after == before;
    } else {
      var init := after[..|after| - 1];
      SelectedInOrder(before, init, lo, hi);
      assert (before + after)[..|before + after| - 1] == before + init;
    }
  }

  /** `s` cut or filled up with zeros to `size`. */
  function Fitted(s: seq<real>, size: nat): (r: seq<real>)
    ensures |r| == size
    ensures forall k :: 0 <= k < size ==> r[k] == if k < |s| then s[k] else 0.0
  {
    if |s| >= size then s[..size] else s + Zeros(size - |s|)
  }

  method Select(arranged: seq<real>, lo: real, hi: real, feature: array<real>)
    requires forall k :: 0 <= k < feature.Length ==> feature[k] == 0.0
    modifies feature
    ensures feature[..] == Fitted(Selected(arranged, lo, hi), feature.Length)
  {
    var crt := 0;
    for i := 0 to |arranged|
      invariant crt <= feature.Length
      invariant crt == if |Selected(arranged[..i], lo, hi)| < feature.Length then |Selected(arranged[..i], lo, hi)|
                       else feature.Length
      invariant forall k :: 0 <= k < crt ==> feature[k] == Selected(arranged[..i], lo, hi)[k]
      invariant forall k :: crt <= k < feature.Length ==> feature[k] == 0.0
    {
      assert arranged[..i + 1][..i] == arranged[..i];
      if (arranged[i] <= lo || arranged[i] >= hi) && crt < feature.Length {
        feature[crt] := arranged[i];
        crt := crt + 1;
      }
    }
    assert arranged[..|arranged|] == arranged;
  }

  /** The feature of one channel in the two wavelet modes. */
  method ExtractChannel(d: seq<real>, arranged: seq<real>, featureSize: nat) returns (feature: array<real>)
    ensures fresh(feature) && feature.Length == featureSize
    ensures var m := featureSize / 2;
            feature[..] == Fitted(Selected(arranged, Threshold(true, d, m), Threshold(false, d, m)), featureSize)
  {
    feature := new real[featureSize](_ => 0.0);
    var lo, hi := Thresholds(d, featureSize / 2);
    Select(arranged, lo, hi, feature);
  }

  // ---------- what the selection loses ----------

  function Count(p: real -> bool, s: seq<real>): (n: nat)
    ensures n <= |s|
  {
    if s == [] then 0 else Count(p, s[..|s| - 1]) + if p(s[|s| - 1]) then 1 else 0
  }

  lemma {:induction false} CountAppend(p: real -> bool, a: seq<real>, b: seq<real>)
    ensures Count(p, a + b) == Count(p, a) + Count(p, b)
  {
    if b == [] {
      assert a + b == a;
    } else {
      assert (a + b)[..|a + b| - 1] == a + b[..|b| - 1];
      CountAppend(p, a, b[..|b| - 1]);
    }
  }

  lemma {:induction false} CountAll(p: real -> bool, s: seq<real>)
    requires forall i :: 0 <= i < |s| ==> p(s[i])
    ensures Count(p, s) == |s|
  {
    if s != [] { CountAll(p, s[..|s| - 1]); }
  }

  lemma {:induction false} CountNone(p: real -> bool, s: seq<real>)
    requires forall i :: 0 <= i < |s| ==> !p(s[i])
    ensures Count(p, s) == 0
  {
    if s != [] { CountNone(p, s[..|s| - 1]); }
  }

  lemma {:induction false} WithoutOne(p: real -> bool, t: seq<real>, j: nat)
    requires j < |t|
    ensures var others := t[..j] + t[j + 1..];
            && multiset(t) == multiset(others) + multiset{t[j]}
            && Count(p, t) == Count(p, others) + if p(t[j]) then 1 else 0
  {
    var head := t[..j + 1];
    assert t == head + t[j + 1..] && head == t[..j] + [t[j]] && head[..j] == t[..j];
    CountAppend(p, t[..j], t[j + 1..]);
    CountAppend(p, head, t[j + 1..]);
  }

  /** Counting does not depend on the order. */
  lemma {:induction false} CountSame(p: real -> bool, s: seq<real>, t: seq<real>)
    requires multiset(s) == multiset(t)
    ensures Count(p, s) == Count(p, t)
  {
    if s == [] {
      assert |multiset(t)| == 0;
    } else {
      var init, x := s[..|s| - 1], s[|s| - 1];
      assert s == init + [x];
      assert x in multiset(t);
      var j :| 0 <= j < |t| && t[j] == x;
      var others := t[..j] + t[j + 1..];
      WithoutOne(p, t, j);
      assert multiset(init) == multiset(s) - multiset{x};
      assert multiset(others) == multiset(t) - multiset{x};
      CountSame(p, init, others);
    }
  }

  lemma {:induction false} RankHolds(p: real -> bool, s: seq<real>, k: nat)
    requires k < |s| && p(s[k]) && forall i :: 0 <= i < k ==> p(s[i])
    ensures Count(p, s) > k
  {
    assert s == s[..k + 1] + s[k + 1..];
    CountAppend(p, s[..k + 1], s[k + 1..]);
    CountAll(p, s[..k + 1]);
  }

  lemma {:induction false} RankFails(p: real -> bool, s: seq<real>, k: nat)
    requires k < |s| && forall i :: k <= i < |s| ==> !p(s[i])
    ensures Count(p, s) <= k
  {
    assert s == s[..k] + s[k..];
    CountAppend(p, s[..k], s[k..]);
    CountNone(p, s[k..]);
  }

  /** When the elements for which `p` holds come first, it holds for the k-th exactly if it holds for more than k. */
  lemma {:induction false} Rank(p: real -> bool, s: seq<real>, k: nat)
    requires k < |s| && forall i, j :: 0 <= i < j < |s| && p(s[j]) ==> p(s[i])
    ensures p(s[k]) <==> Count(p, s) > k
  {
    if p(s[k]) {
      RankHolds(p, s, k);
    } else {
      RankFails(p, s, k);
    }
  }

  lemma {:induction false} ThresholdRank(lowest: bool, d: seq<real>, m: nat, p: real -> bool)
    requires forall x, y :: p(y) && !Precedes(lowest, y, x) ==> p(x)
    ensures p(Threshold(lowest, d, m)) <==> (if p(0.0) then m + 1 else 0) + Count(p, d) > m
  {
    var pool := Zeros(m + 1) + d;
    var sorted := Sort(lowest, pool);
    SortSorts(lowest, pool);
    Rank(p, sorted, m);
    CountSame(p, sorted, pool);
    CountAppend(p, Zeros(m + 1), d);
    if p(0.0) { CountAll(p, Zeros(m + 1)); } else { CountNone(p, Zeros(m + 1)); }
  }

  function Negatives(d: seq<real>): nat {
    Count(x => x < 0.0, d)
  }

  function Positives(d: seq<real>): nat {
    Count(x => x > 0.0, d)
  }

  /** The thresholds are on either side of 0, and away from it exactly when there are more than `m` values there. */
  lemma {:induction false} ThresholdSigns(d: seq<real>, m: nat)
    ensures Threshold(true, d, m) <= 0.0 <= Threshold(false, d, m)
    ensures Threshold(true, d, m) < 0.0 <==> Negatives(d) > m
    ensures Threshold(false, d, m) > 0.0 <==> Positives(d) > m
  {
    ThresholdRank(true, d, m, x => x < 0.0);
    ThresholdRank(false, d, m, x => x > 0.0);
    ThresholdRank(true, d, m, x => x <= 0.0);
    ThresholdRank(false, d, m, x => x >= 0.0);
  }

  /** At least `m + 1` values reach a threshold that is not 0. */
  lemma {:induction false} ThresholdReached(d: seq<real>, m: nat)
    ensures var lo, hi := Threshold(true, d, m), Threshold(false, d, m);
            && (lo < 0.0 ==> Count(x => x <= lo, d) > m)
            && (hi > 0.0 ==> Count(x => x >= hi, d) > m)
  {
    var lo, hi := Threshold(true, d, m), Threshold(false, d, m);
    ThresholdRank(true, d, m, x => x <= lo);
    ThresholdRank(false, d, m, x => x >= hi);
  }

  lemma {:induction false} SelectedCounts(arranged: seq<real>, lo: real, hi: real)
    ensures |Selected(arranged, lo, hi)| == Count(x => x <= lo || x >= hi, arranged)
  {
    if arranged != [] { SelectedCounts(arranged[..|arranged| - 1], lo, hi); }
  }

  lemma {:induction false} CountEither(lo: real, hi: real, s: seq<real>)
    ensures lo < hi ==> Count(x => x <= lo || x >= hi, s) == Count(x => x <= lo, s) + Count(x => x >= hi, s)
    ensures lo >= hi ==> Count(x => x <= lo || x >= hi, s) == |s|
  {
    if s != [] { CountEither(lo, hi, s[..|s| - 1]); }
  }

  /** How many coefficients are selected: all of them when at most `m` lie on either side of 0, and otherwise
      those that reach either threshold. With more than `m` on both sides these are at least `2 * m + 2`. */
  lemma {:induction false} SelectedExactly(d: seq<real>, arranged: seq<real>, m: nat)
    requires multiset(arranged) == multiset(d)
    ensures var lo, hi := Threshold(true, d, m), Threshold(false, d, m);
            var n := |Selected(arranged, lo, hi)|;
            && (Negatives(d) <= m && Positives(d) <= m ==> n == |d|)
            && (Negatives(d) > m || Positives(d) > m ==> n == Count(x => x <= lo, d) + Count(x => x >= hi, d))
            && (Negatives(d) > m && Positives(d) > m ==> n >= 2 * m + 2)
  {
    var lo, hi := Threshold(true, d, m), Threshold(false, d, m);
    ThresholdSigns(d, m);
    ThresholdReached(d, m);
    SelectedCounts(arranged, lo, hi);
    CountSame(x => x <= lo || x >= hi, arranged, d);
    CountEither(lo, hi, d);
  }

  /** The feature holds all that is selected exactly when it is large enough for it. */
  lemma {:induction false} NothingLostExactly(selected: seq<real>, size: nat)
    ensures selected <= Fitted(selected, size) <==> |selected| <= size
  {
  }

  /** With more than half the feature size on both sides of 0, the last coefficients selected are lost. */
  lemma {:induction false} BothSidesLose(d: seq<real>, arranged: seq<real>, featureSize: nat)
    requires multiset(arranged) == multiset(d)
    requires Negatives(d) > featureSize / 2 && Positives(d) > featureSize / 2
    ensures var m := featureSize / 2;
            var selected := Selected(arranged, Threshold(true, d, m), Threshold(false, d, m));
            |selected| > featureSize && Fitted(selected, featureSize) == selected[..featureSize]
  {
    SelectedExactly(d, arranged, featureSize / 2);
  }

  lemma {:induction false} CountFour(p: real -> bool, s: seq<real>)
    requires |s| == 4
    ensures Count(p, s) == (if p(s[0]) then 1 else 0) + (if p(s[1]) then 1 else 0) + (if p(s[2]) then 1 else 0)
                           + if p(s[3]) then 1 else 0
  {
    assert s[..3][..2] == s[..2] && s[..2][..1] == s[..1] && s[..1][..0] == [];
    assert Count(p, s[..1]) == if p(s[0]) then 1 else 0;
    assert Count(p, s[..2]) == Count(p, s[..1]) + if p(s[1]) then 1 else 0;
  }

  lemma {:induction false} SelectsAll(s: seq<real>, lo: real, hi: real)
    requires forall i :: 0 <= i < |s| ==> s[i] <= lo || s[i] >= hi
    ensures Selected(s, lo, hi) == s
  {
    if s != [] { SelectsAll(s[..|s| - 1], lo, hi); }
  }

  /** Four coefficients, two on either side: a feature of size 2 holds none of the highest. */
  lemma {:induction false} HighestAreLost() returns (d: seq<real>)
    ensures d == [-2.0, -1.0, 1.0, 2.0]
    ensures Fitted(Selected(d, Threshold(true, d, 1), Threshold(false, d, 1)), 2) == [-2.0, -1.0]
  {
    d := [-2.0, -1.0, 1.0, 2.0];
    CountFour(x => x <= -1.0, d);
    CountFour(x => x >= 1.0, d);
    ThresholdRank(true, d, 1, x => x <= -1.0);
    ThresholdRank(false, d, 1, x => x >= 1.0);
    CountFour(x => x < -1.0, d);
    CountFour(x => x > 1.0, d);
    ThresholdRank(true, d, 1, x => x < -1.0);
    ThresholdRank(false, d, 1, x => x > 1.0);
    SelectsAll(d, -1.0, 1.0);
  }
}
