/**
  Per-line maps as the coverage builder keeps them (line number to an integer
  value: hits, branch totals or covered branches), and the facts about them
  that the builder's running totals rest on.
 */
module LineMaps {

  function Max(a: int, b: int): (r: int)
  {
    if a >= b then a else b
  }

  function Abs(x: int): (r: int)
  {
    if x < 0 then -x else x
  }

  /** The gain |old - max(old, v)| of a max-merge is max(old, v) - old, never negative. */
  lemma AbsGainOfMax(oldValue: int, v: int)
    ensures Abs(oldValue - Max(oldValue, v)) == Max(oldValue, v) - oldValue >= 0
  {
  }

  /** Max-merge of one value into a per-line map: an unknown line takes the
      value, a known line keeps the larger of its old value and the new one,
      every other line is left alone and no line is ever removed. */
  function MaxMerge(m: map<int, int>, line: int, v: int): (r: map<int, int>)
    ensures r.Keys == m.Keys + {line}
    ensures forall l :: l in m && l != line ==> r[l] == m[l]
    ensures line !in m ==> r[line] == v
    ensures line in m ==> r[line] >= m[line] && r[line] >= v && (r[line] == m[line] || r[line] == v)
  {
    m[line := if line in m then Max(m[line], v) else v]
  }

  /** Merging the same value twice changes nothing the second time. */
  lemma MaxMergeIdempotent(m: map<int, int>, line: int, v: int)
    ensures MaxMerge(MaxMerge(m, line, v), line, v) == MaxMerge(m, line, v)
  {
  }

  /** The order in which two values for one line arrive does not matter. */
  lemma MaxMergeCommutes(m: map<int, int>, line: int, a: int, b: int)
    ensures MaxMerge(MaxMerge(m, line, a), line, b) == MaxMerge(MaxMerge(m, line, b), line, a)
  {
  }

  ghost predicate Positive(m: map<int, int>)
  {
    forall l :: l in m ==> m[l] > 0
  }

  ghost predicate NonNegative(m: map<int, int>)
  {
    forall l :: l in m ==> m[l] >= 0
  }

  /** The lines whose recorded value is positive. */
  ghost function CoveredLines(m: map<int, int>): (s: set<int>)
    ensures s <= m.Keys
    ensures |s| <= |m|
  {
    var s := set l | l in m && m[l] > 0;
    SubsetSize(s, m.Keys);
    s
  }

  /** A map without keys is the empty map. */
  lemma NoKeysMeansEmpty(m: map<int, int>)
    ensures (forall l :: l !in m) ==> m == map[]
  {
    if forall l :: l !in m {
      assert m.Keys == {};
    }
  }

  /** A set without elements is the empty set. */
  lemma NoElementsMeansEmpty(s: set<int>)
    ensures (forall l :: l !in s) ==> s == {}
  {
    if forall l :: l !in s {
      assert s == {};
    }
  }

  lemma {:induction false} SubsetSize(a: set<int>, b: set<int>)
    requires a <= b
    ensures |a| <= |b|
    decreases |b|
  {
    if b != {} {
      NoElementsMeansEmpty(b);
      var x :| x in b;
      SubsetSize(a - {x}, b - {x});
    }
  }

  /** The test by which the builder counts a line as newly covered: the line
      is unknown or has recorded zero hits so far, and the new count is positive. */
  predicate BecomesCovered(m: map<int, int>, line: int, h: int)
  {
    (line !in m || m[line] == 0) && h > 0
  }

  /** A max-merge of hits never uncovers a line. It covers at least one more
      line when BecomesCovered holds, and, when no recorded value is negative,
      exactly one more line then and none otherwise. */
  lemma CoveredLinesMerge(m: map<int, int>, line: int, h: int)
    ensures CoveredLines(m) <= CoveredLines(MaxMerge(m, line, h))
    ensures |CoveredLines(MaxMerge(m, line, h))| >= |CoveredLines(m)| + (if BecomesCovered(m, line, h) then 1 else 0)
    ensures NonNegative(m) ==>
      |CoveredLines(MaxMerge(m, line, h))| == |CoveredLines(m)| + (if BecomesCovered(m, line, h) then 1 else 0)
  {
    var before, after := CoveredLines(m), CoveredLines(MaxMerge(m, line, h));
    if BecomesCovered(m, line, h) {
      assert line !in before;
      assert after == before + {line};
    } else {
      assert before <= after;
      SubsetSize(before, after);
      if NonNegative(m) {
        assert after == before;
      }
    }
  }

  /** The sum of the values of a per-line map. */
  ghost function Sum(m: map<int, int>): (r: int)
    decreases |m|
  {
    if m == map[] then 0
    else
      NoKeysMeansEmpty(m);
      var k :| k in m;
      assert |(m - {k}).Keys| < |m.Keys| by {
        assert m.Keys == (m - {k}).Keys + {k};
      }
      m[k] + Sum(m - {k})
  }

  /** Any line can be taken out of the sum first. */
  lemma {:induction false} SumRemove(m: map<int, int>, k: int)
    requires k in m
    ensures Sum(m) == m[k] + Sum(m - {k})
    decreases |m|
  {
    var j :| j in m && Sum(m) == m[j] + Sum(m - {j});
    if j != k {
      var mj, mk := m - {j}, m - {k};
      assert |mj.Keys| < |m.Keys| by { assert m.Keys == mj.Keys + {j}; }
      assert |mk.Keys| < |m.Keys| by { assert m.Keys == mk.Keys + {k}; }
      SumRemove(mj, k);
      SumRemove(mk, j);
      assert mj - {k} == mk - {j};
    }
  }

  /** Setting one line's value moves the sum by the difference it makes. */
  lemma SumUpdate(m: map<int, int>, k: int, v: int)
    ensures Sum(m[k := v]) == Sum(m) - (if k in m then m[k] else 0) + v
  {
    SumRemove(m[k := v], k);
    assert m[k := v] - {k} == m - {k};
    if k in m {
      SumRemove(m, k);
    } else {
      assert m - {k} == m;
    }
  }

  /** Every line of hi is in lo with 0 <= lo[l] <= hi[l]. */
  ghost predicate Bounded(lo: map<int, int>, hi: map<int, int>)
  {
    forall l :: l in hi ==> l in lo && 0 <= lo[l] <= hi[l]
  }

  /** Recording a total for a line (the one it already has, if any) and
      max-merging a covered count between zero and that total keeps the
      covered counts bounded by the totals. */
  lemma BoundedMerge(lo: map<int, int>, hi: map<int, int>, line: int, total: int, covered: int)
    requires Bounded(lo, hi) && lo.Keys == hi.Keys
    requires line in hi ==> hi[line] == total
    requires 0 <= covered <= total
    ensures Bounded(MaxMerge(lo, line, covered), hi[line := total])
  {
  }

  /** Pointwise bounds 0 <= lo[l] <= hi[l] carry over to the sums. */
  lemma {:induction false} SumWithin(lo: map<int, int>, hi: map<int, int>)
    requires lo.Keys == hi.Keys
    requires Bounded(lo, hi)
    ensures 0 <= Sum(lo) <= Sum(hi)
    decreases |lo|
  {
    if lo == map[] {
      assert hi.Keys == {};
      assert hi == map[];
    } else {
      NoKeysMeansEmpty(lo);
      var k :| k in lo;
      SumRemove(lo, k);
      SumRemove(hi, k);
      assert |(lo - {k}).Keys| < |lo.Keys| by { assert lo.Keys == (lo - {k}).Keys + {k}; }
      SumWithin(lo - {k}, hi - {k});
    }
  }

  /** With positive values only, the sum is at least the number of lines, so
      it is positive exactly when some line is recorded. */
  lemma {:induction false} SumOfPositives(m: map<int, int>)
    requires Positive(m)
    ensures Sum(m) >= |m|
    ensures Sum(m) > 0 <==> m != map[]
    decreases |m|
  {
    if m != map[] {
      NoKeysMeansEmpty(m);
      var k :| k in m;
      SumRemove(m, k);
      assert |(m - {k}).Keys| + 1 == |m.Keys| by { assert m.Keys == (m - {k}).Keys + {k}; }
      SumOfPositives(m - {k});
    }
  }
}
