/**
 * pandas' `Series.rolling(window=w).max()` and `.min()` with the default
 * `min_periods` (equal to the window): the value at index `i` summarises the `w`
 * entries ending at `i`, and is NaN when fewer than `w` entries exist or any of
 * them is NaN.
 */
module Rolling {
  import opened Numbers

  /** Every entry of `s` is a real number. */
  predicate AllReal(s: seq<Num>) {
    forall k :: 0 <= k < |s| ==> s[k].Real?
  }

  /** The largest element of a non-empty sequence. */
  function MaxOf(s: seq<real>): (m: real)
    requires |s| > 0
    ensures forall k :: 0 <= k < |s| ==> s[k] <= m
    ensures exists k :: 0 <= k < |s| && s[k] == m
  {
    if |s| == 1 then s[0]
    else
      var rest := MaxOf(s[..|s| - 1]);
      assert forall k :: 0 <= k < |s| - 1 ==> s[..|s| - 1][k] == s[k];
      if s[|s| - 1] > rest then s[|s| - 1] else rest
  }

  /** The smallest element of a non-empty sequence. */
  function MinOf(s: seq<real>): (m: real)
    requires |s| > 0
    ensures forall k :: 0 <= k < |s| ==> m <= s[k]
    ensures exists k :: 0 <= k < |s| && s[k] == m
  {
    if |s| == 1 then s[0]
    else
      var rest := MinOf(s[..|s| - 1]);
      assert forall k :: 0 <= k < |s| - 1 ==> s[..|s| - 1][k] == s[k];
      if s[|s| - 1] < rest then s[|s| - 1] else rest
  }

  /** The real values of a NaN-free sequence. */
  function Reals(s: seq<Num>): (r: seq<real>)
    requires AllReal(s)
    ensures |r| == |s|
    ensures forall k :: 0 <= k < |s| ==> r[k] == s[k].value
  {
    seq(|s|, k requires 0 <= k < |s| => s[k].value)
  }

  /** Entry `i` of `xs.rolling(window=w).max()`. */
  function RollingMaxAt(xs: seq<Num>, w: nat, i: nat): (r: Num)
    requires 0 < w && i < |xs|
    ensures r.Real? <==> w <= i + 1 && forall k :: i + 1 - w <= k <= i ==> xs[k].Real?
    ensures r.Real? ==>
      && (forall k :: i + 1 - w <= k <= i ==> xs[k].Real? && xs[k].value <= r.value)
      && (exists k :: i + 1 - w <= k <= i && xs[k] == r)
  {
    if i + 1 < w then NaN
    else
      var win := xs[i + 1 - w..i + 1];
      assert forall k :: i + 1 - w <= k <= i ==> xs[k] == win[k - (i + 1 - w)];
      if AllReal(win) then Real(MaxOf(Reals(win))) else NaN
  }

  /** Entry `i` of `xs.rolling(window=w).min()`. */
  function RollingMinAt(xs: seq<Num>, w: nat, i: nat): (r: Num)
    requires 0 < w && i < |xs|
    ensures r.Real? <==> w <= i + 1 && forall k :: i + 1 - w <= k <= i ==> xs[k].Real?
    ensures r.Real? ==>
      && (forall k :: i + 1 - w <= k <= i ==> xs[k].Real? && r.value <= xs[k].value)
      && (exists k :: i + 1 - w <= k <= i && xs[k] == r)
  {
    if i + 1 < w then NaN
    else
      var win := xs[i + 1 - w..i + 1];
      assert forall k :: i + 1 - w <= k <= i ==> xs[k] == win[k - (i + 1 - w)];
      if AllReal(win) then Real(MinOf(Reals(win))) else NaN
  }

  /** The largest of `xs[lo..hi]`, found by one left-to-right scan. */
  method WindowMax(xs: seq<Num>, lo: nat, hi: nat) returns (m: Num)
    requires lo < hi <= |xs|
    requires forall k :: lo <= k < hi ==> xs[k].Real?
    ensures m.Real?
    ensures forall k :: lo <= k < hi ==> xs[k].value <= m.value
    ensures exists k :: lo <= k < hi && xs[k] == m
  {
    m := xs[lo];
    var k := lo + 1;
    while k < hi
      invariant lo < k <= hi
      invariant m.Real?
      invariant forall j :: lo <= j < k ==> xs[j].value <= m.value
      invariant exists j :: lo <= j < k && xs[j] == m
    {
      if xs[k].value > m.value {
        m := xs[k];
      }
      k := k + 1;
    }
  }

  /** The smallest of `xs[lo..hi]`, found by one left-to-right scan. */
  method WindowMin(xs: seq<Num>, lo: nat, hi: nat) returns (m: Num)
    requires lo < hi <= |xs|
    requires forall k :: lo <= k < hi ==> xs[k].Real?
    ensures m.Real?
    ensures forall k :: lo <= k < hi ==> m.value <= xs[k].value
    ensures exists k :: lo <= k < hi && xs[k] == m
  {
    m := xs[lo];
    var k := lo + 1;
    while k < hi
      invariant lo < k <= hi
      invariant m.Real?
      invariant forall j :: lo <= j < k ==> m.value <= xs[j].value
      invariant exists j :: lo <= j < k && xs[j] == m
    {
      if xs[k].value < m.value {
        m := xs[k];
      }
      k := k + 1;
    }
  }

  /**
   * The whole column `xs.rolling(window=w).max()`, in one left-to-right pass
   * that tracks how many non-NaN entries end at the current index and rescans
   * each complete window; it agrees entry by entry with `RollingMaxAt`.
   */
  method RollingMax(xs: seq<Num>, w: nat) returns (r: seq<Num>)
    requires 0 < w
    ensures |r| == |xs|
    ensures forall i :: 0 <= i < |xs| ==> r[i] == RollingMaxAt(xs, w, i)
  {
    r := [];
    var run := 0;
    var i := 0;
    while i < |xs|
      invariant i <= |xs| && |r| == i
      invariant forall j :: 0 <= j < i ==> r[j] == RollingMaxAt(xs, w, j)
      invariant run <= i
      invariant forall k :: i - run <= k < i ==> xs[k].Real?
      invariant run < i ==> xs[i - run - 1].NaN?
    {
      run := if xs[i].Real? then run + 1 else 0;
      var v := NaN;
      if w <= run {
        v := WindowMax(xs, i + 1 - w, i + 1);
      } else if w <= i + 1 {
        assert xs[i - run].NaN?;
      }
      assert v == RollingMaxAt(xs, w, i);
      r := r + [v];
      i := i + 1;
    }
  }

  /** The whole column `xs.rolling(window=w).min()`, by the same pass that rescans each
      complete window; it agrees entry by entry with `RollingMinAt`. */
  method RollingMin(xs: seq<Num>, w: nat) returns (r: seq<Num>)
    requires 0 < w
    ensures |r| == |xs|
    ensures forall i :: 0 <= i < |xs| ==> r[i] == RollingMinAt(xs, w, i)
  {
    r := [];
    var run := 0;
    var i := 0;
    while i < |xs|
      invariant i <= |xs| && |r| == i
      invariant forall j :: 0 <= j < i ==> r[j] == RollingMinAt(xs, w, j)
      invariant run <= i
      invariant forall k :: i - run <= k < i ==> xs[k].Real?
      invariant run < i ==> xs[i - run - 1].NaN?
    {
      run := if xs[i].Real? then run + 1 else 0;
      var v := NaN;
      if w <= run {
        v := WindowMin(xs, i + 1 - w, i + 1);
      } else if w <= i + 1 {
        assert xs[i - run].NaN?;
      }
      assert v == RollingMinAt(xs, w, i);
      r := r + [v];
      i := i + 1;
    }
  }
}
