/**
 * Counting values in a column: the mode that pandas reports with `mode()[0]`,
 * the minimum and maximum, and the label-sorted table of `value_counts()`.
 */
module Frequency {
  import opened Ordering

  /** How many times `v` occurs in `xs`. */
  function Count<T(==)>(xs: seq<T>, v: T): nat {
    multiset(xs)[v]
  }

  /**
   * `m` is what `mode()[0]` reports: it occurs in `xs`, no value occurs more
   * often, and among the values that occur as often it is the least under `le`
   * (pandas returns the modes sorted, and the first one is taken).
   */
  ghost predicate IsMode<T(!new)>(xs: seq<T>, le: (T, T) -> bool, m: T) {
    && m in xs
    && (forall v :: v in xs ==> Count(xs, v) <= Count(xs, m))
    && (forall v :: v in xs && Count(xs, v) == Count(xs, m) ==> le(m, v))
  }

  /** The best of the candidates `cands`, counting occurrences in `xs`. */
  function ModeAmong<T(==, !new)>(xs: seq<T>, le: (T, T) -> bool, cands: seq<T>): (m: T)
    requires cands != [] && TotalOrder(le)
    ensures m in cands
    ensures forall v :: v in cands ==> Count(xs, v) <= Count(xs, m)
    ensures forall v :: v in cands && Count(xs, v) == Count(xs, m) ==> le(m, v)
  {
    if |cands| == 1 then cands[0]
    else
      var rest := ModeAmong(xs, le, cands[1..]);
      var c := cands[0];
      assert forall v :: v in cands ==> v == c || v in cands[1..];
      if Count(xs, c) > Count(xs, rest) || (Count(xs, c) == Count(xs, rest) && le(c, rest)) then c
      else rest
  }

  /** The mode of a non-empty column. */
  function Mode<T(==, !new)>(xs: seq<T>, le: (T, T) -> bool): (m: T)
    requires xs != [] && TotalOrder(le)
    ensures IsMode(xs, le, m)
  {
    ModeAmong(xs, le, xs)
  }

  /** The three conditions of `IsMode` leave one value only. */
  lemma ModeIsUnique<T(!new)>(xs: seq<T>, le: (T, T) -> bool, m1: T, m2: T)
    requires TotalOrder(le)
    requires IsMode(xs, le, m1) && IsMode(xs, le, m2)
    ensures m1 == m2
  {
  }

  /** The mode occurs in the column at least once. */
  lemma ModeOccurs<T(!new)>(xs: seq<T>, le: (T, T) -> bool)
    requires xs != [] && TotalOrder(le)
    ensures Count(xs, Mode(xs, le)) >= 1
  {
  }

  /** `min()` of a non-empty column. */
  function Min(xs: seq<int>): (m: int)
    requires xs != []
    ensures m in xs
    ensures forall x :: x in xs ==> m <= x
  {
    if |xs| == 1 then xs[0]
    else
      var rest := Min(xs[1..]);
      assert forall x :: x in xs ==> x == xs[0] || x in xs[1..];
      if xs[0] <= rest then xs[0] else rest
  }

  /** `max()` of a non-empty column. */
  function Max(xs: seq<int>): (m: int)
    requires xs != []
    ensures m in xs
    ensures forall x :: x in xs ==> x <= m
  {
    if |xs| == 1 then xs[0]
    else
      var rest := Max(xs[1..]);
      assert forall x :: x in xs ==> x == xs[0] || x in xs[1..];
      if xs[0] >= rest then xs[0] else rest
  }

  /** Every value of the column lies between its minimum and maximum, the mode included. */
  lemma ModeBetweenMinAndMax(xs: seq<int>)
    requires xs != []
    ensures (NumLeIsTotalOrder(); Min(xs) <= Mode(xs, NumLe) <= Max(xs))
  {
    NumLeIsTotalOrder();
  }

  /** Labels in ascending order, with no label twice. */
  ghost predicate StrictlyAscending<T(!new)>(le: (T, T) -> bool, s: seq<T>) {
    forall i, j :: 0 <= i < j < |s| ==> le(s[i], s[j]) && s[i] != s[j]
  }

  /** Adds `x` to an ascending label list, unless it is already there. */
  function Insert<T(==, !new)>(le: (T, T) -> bool, labels: seq<T>, x: T): (r: seq<T>)
    requires TotalOrder(le) && StrictlyAscending(le, labels)
    ensures StrictlyAscending(le, r)
    ensures forall v :: v in r <==> v in labels || v == x
  {
    if labels == [] then [x]
    else if x == labels[0] then labels
    else if le(x, labels[0]) then
      assert forall i :: 0 <= i < |labels| ==> le(x, labels[i]) && x != labels[i] by {
        forall i | 0 <= i < |labels| ensures le(x, labels[i]) && x != labels[i] {
          if i > 0 {
            assert le(labels[0], labels[i]) && labels[0] != labels[i];
          }
        }
      }
      [x] + labels
    else
      var rest := Insert(le, labels[1..], x);
      assert forall v :: v in rest ==> le(labels[0], v) && labels[0] != v by {
        forall v | v in rest ensures le(labels[0], v) && labels[0] != v {
          if v != x {
            var j :| 0 <= j < |labels[1..]| && labels[1..][j] == v;
            assert labels[j + 1] == v;
          }
        }
      }
      var r := [labels[0]] + rest;
      assert forall i, j :: 0 <= i < j < |r| ==> le(r[i], r[j]) && r[i] != r[j] by {
        forall i, j | 0 <= i < j < |r| ensures le(r[i], r[j]) && r[i] != r[j] {
          assert r[j] == rest[j - 1] && r[j] in rest;
          if i > 0 {
            assert r[i] == rest[i - 1];
          }
        }
      }
      r
  }

  /** The distinct values of `xs`, ascending: the index of `value_counts().sort_index()`. */
  function SortedLabels<T(==, !new)>(le: (T, T) -> bool, xs: seq<T>): (r: seq<T>)
    requires TotalOrder(le)
    ensures StrictlyAscending(le, r)
    ensures forall v :: v in r <==> v in xs
  {
    if xs == [] then []
    else
      var init := xs[..|xs| - 1];
      assert xs == init + [xs[|xs| - 1]];
      Insert(le, SortedLabels(le, init), xs[|xs| - 1])
  }

  /** Pairs each label with the number of times it occurs in `xs`. */
  function CountsFor<T(==)>(labels: seq<T>, xs: seq<T>): (r: seq<(T, nat)>)
    ensures |r| == |labels|
    ensures forall i :: 0 <= i < |r| ==> r[i] == (labels[i], Count(xs, labels[i]))
  {
    if labels == [] then []
    else [(labels[0], Count(xs, labels[0]))] + CountsFor(labels[1..], xs)
  }

  /** Sum of the counts of a count table. */
  function Total<T>(counts: seq<(T, nat)>): nat {
    if counts == [] then 0 else counts[0].1 + Total(counts[1..])
  }

  /**
   * `value_counts().sort_index(ascending=True)`: one entry per distinct value,
   * labels ascending, each with its number of occurrences, which is at least one.
   */
  function ValueCounts<T(==, !new)>(le: (T, T) -> bool, xs: seq<T>): (r: seq<(T, nat)>)
    requires TotalOrder(le)
    ensures forall i, j :: 0 <= i < j < |r| ==> le(r[i].0, r[j].0) && r[i].0 != r[j].0
    ensures forall v :: v in xs <==> exists i :: 0 <= i < |r| && r[i].0 == v
    ensures forall i :: 0 <= i < |r| ==> r[i].1 == Count(xs, r[i].0) >= 1
  {
    var labels := SortedLabels(le, xs);
    var r := CountsFor(labels, xs);
    assert forall i :: 0 <= i < |r| ==> r[i].0 == labels[i] && labels[i] in xs && Count(xs, labels[i]) >= 1 by {
      forall i | 0 <= i < |r| ensures r[i].0 == labels[i] && labels[i] in xs && Count(xs, labels[i]) >= 1 {
        assert labels[i] in labels;
        assert labels[i] in multiset(xs);
      }
    }
    r
  }

  /** Counting `x :: ys` over distinct labels adds one exactly when `x` is a label. */
  lemma {:induction false} TotalConsOne<T>(labels: seq<T>, x: T, ys: seq<T>)
    requires forall i, j :: 0 <= i < j < |labels| ==> labels[i] != labels[j]
    ensures Total(CountsFor(labels, [x] + ys)) == Total(CountsFor(labels, ys)) + (if x in labels then 1 else 0)
  {
    if labels != [] {
      TotalConsOne(labels[1..], x, ys);
      assert multiset([x] + ys) == multiset{x} + multiset(ys);
      assert x in labels <==> x == labels[0] || x in labels[1..];
      if x == labels[0] {
        assert x !in labels[1..] by {
          forall j | 0 <= j < |labels[1..]| ensures labels[1..][j] != x {
            assert labels[j + 1] != labels[0];
          }
        }
      }
    }
  }

  /** With distinct labels covering every value, the counts add up to the length. */
  lemma {:induction false} TotalOfCovering<T>(labels: seq<T>, xs: seq<T>)
    requires forall i, j :: 0 <= i < j < |labels| ==> labels[i] != labels[j]
    requires forall v :: v in xs ==> v in labels
    ensures Total(CountsFor(labels, xs)) == |xs|
  {
    if xs == [] {
      TotalOfNothing(labels);
    } else {
      assert xs == [xs[0]] + xs[1..];
      TotalOfCovering(labels, xs[1..]);
      TotalConsOne(labels, xs[0], xs[1..]);
    }
  }

  lemma {:induction false} TotalOfNothing<T>(labels: seq<T>)
    ensures Total(CountsFor(labels, [])) == 0
  {
    if labels != [] {
      TotalOfNothing(labels[1..]);
    }
  }

  /** The counts reported by `value_counts()` add up to the number of values counted. */
  lemma ValueCountsTotal<T(!new)>(le: (T, T) -> bool, xs: seq<T>)
    requires TotalOrder(le)
    ensures Total(ValueCounts(le, xs)) == |xs|
  {
    TotalOfCovering(SortedLabels(le, xs), xs);
  }
}
