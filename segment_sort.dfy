/** The `sortedSegments` memo of components/VideoSplitter.tsx: a copy of the
    kept segments sorted by Array.prototype.sort, which is stable, either by
    ascending start time or by descending viral score. Modelled as a stable
    insertion sort, proved sorted, a permutation, and stable (segments with
    equal keys keep their relative order). */
module SegmentSort {
  import opened Common

  datatype SortMode = ByTime | ByScore

  /** The number the comparator subtracts: ascending startTime, or
      descending viralScore written as ascending -viralScore. */
  function Key(s: SplitSegment, mode: SortMode): real
  {
    match mode
    case ByTime => s.startTime
    case ByScore => -s.viralScore
  }

  ghost predicate Sorted(s: seq<SplitSegment>, mode: SortMode)
  {
    forall i, j :: 0 <= i < j < |s| ==> Key(s[i], mode) <= Key(s[j], mode)
  }

  /** Places x after every element whose key is not greater than its own. */
  function Insert(x: SplitSegment, t: seq<SplitSegment>, mode: SortMode): (r: seq<SplitSegment>)
    ensures |r| == |t| + 1
  {
    if t == [] || Key(x, mode) < Key(t[0], mode) then [x] + t
    else [t[0]] + Insert(x, t[1..], mode)
  }

  /** The re-sorted copy of `segments` shown by the splitter. */
  function SortSegments(s: seq<SplitSegment>, mode: SortMode): (r: seq<SplitSegment>)
    ensures |r| == |s|
  {
    if s == [] then []
    else Insert(s[|s| - 1], SortSegments(s[..|s| - 1], mode), mode)
  }

  /** The segments of s whose key is v, in their order in s. */
  function WithKey(s: seq<SplitSegment>, mode: SortMode, v: real): seq<SplitSegment>
  {
    if s == [] then []
    else WithKey(s[..|s| - 1], mode, v) + (if Key(s[|s| - 1], mode) == v then [s[|s| - 1]] else [])
  }

  lemma {:induction false} WithKeyAppend(a: seq<SplitSegment>, b: seq<SplitSegment>, mode: SortMode, v: real)
    ensures WithKey(a + b, mode, v) == WithKey(a, mode, v) + WithKey(b, mode, v)
    decreases |b|
  {
    if b == [] {
      assert a + b == a;
    } else {
      var b' := b[..|b| - 1];
      assert (a + b)[..|a + b| - 1] == a + b';
      assert (a + b)[|a + b| - 1] == b[|b| - 1];
      WithKeyAppend(a, b', mode, v);
    }
  }

  lemma {:induction false} WithKeyNone(t: seq<SplitSegment>, mode: SortMode, v: real)
    requires forall i :: 0 <= i < |t| ==> Key(t[i], mode) != v
    ensures WithKey(t, mode, v) == []
    decreases |t|
  {
    if t != [] {
      WithKeyNone(t[..|t| - 1], mode, v);
    }
  }

  lemma {:induction false} InsertPermutes(x: SplitSegment, t: seq<SplitSegment>, mode: SortMode)
    ensures multiset(Insert(x, t, mode)) == multiset(t) + multiset{x}
    decreases |t|
  {
    if !(t == [] || Key(x, mode) < Key(t[0], mode)) {
      InsertPermutes(x, t[1..], mode);
      assert t == [t[0]] + t[1..];
    }
  }

  lemma {:induction false} InsertSorted(x: SplitSegment, t: seq<SplitSegment>, mode: SortMode)
    requires Sorted(t, mode)
    ensures Sorted(Insert(x, t, mode), mode)
    decreases |t|
  {
    if !(t == [] || Key(x, mode) < Key(t[0], mode)) {
      var rest := t[1..];
      var r' := Insert(x, rest, mode);
      InsertSorted(x, rest, mode);
      InsertPermutes(x, rest, mode);
      forall j | 0 <= j < |r'| ensures Key(t[0], mode) <= Key(r'[j], mode) {
        assert r'[j] in multiset(r');
        if r'[j] != x {
          assert r'[j] in multiset(rest);
          var m :| 0 <= m < |rest| && rest[m] == r'[j];
          assert rest[m] == t[m + 1];
        }
      }
      HeadBelowSorted(t[0], r', mode);
    }
  }

  lemma HeadBelowSorted(h: SplitSegment, r: seq<SplitSegment>, mode: SortMode)
    requires Sorted(r, mode)
    requires forall j :: 0 <= j < |r| ==> Key(h, mode) <= Key(r[j], mode)
    ensures Sorted([h] + r, mode)
  {
    var s := [h] + r;
    forall i, j | 0 <= i < j < |s| ensures Key(s[i], mode) <= Key(s[j], mode) {
      assert s[j] == r[j - 1];
      if i > 0 {
        assert s[i] == r[i - 1];
      }
    }
  }

  lemma {:induction false} InsertWithKey(x: SplitSegment, t: seq<SplitSegment>, mode: SortMode, v: real)
    requires Sorted(t, mode)
    ensures WithKey(Insert(x, t, mode), mode, v)
      == WithKey(t, mode, v) + (if Key(x, mode) == v then [x] else [])
    decreases |t|
  {
    if t == [] || Key(x, mode) < Key(t[0], mode) {
      FrontWithKey(x, t, mode, v);
    } else {
      var rest := t[1..];
      assert Sorted(rest, mode);
      InsertWithKey(x, rest, mode, v);
      assert Insert(x, t, mode) == [t[0]] + Insert(x, rest, mode);
      WithKeyAppend([t[0]], Insert(x, rest, mode), mode, v);
      assert t == [t[0]] + rest;
      WithKeyAppend([t[0]], rest, mode, v);
    }
  }

  /** x placed before a sorted list whose keys all exceed its own. */
  lemma FrontWithKey(x: SplitSegment, t: seq<SplitSegment>, mode: SortMode, v: real)
    requires Sorted(t, mode)
    requires t == [] || Key(x, mode) < Key(t[0], mode)
    ensures WithKey([x] + t, mode, v) == WithKey(t, mode, v) + (if Key(x, mode) == v then [x] else [])
  {
    WithKeyAppend([x], t, mode, v);
    assert [x][..0] == [];
    assert WithKey([x], mode, v) == (if Key(x, mode) == v then [x] else []);
    if Key(x, mode) == v {
      forall i | 0 <= i < |t| ensures Key(t[i], mode) != v {
        assert Key(t[0], mode) <= Key(t[i], mode);
      }
      WithKeyNone(t, mode, v);
    }
  }

  /** The sorted copy is ordered by the comparator's key. */
  lemma {:induction false} SortSegmentsSorted(s: seq<SplitSegment>, mode: SortMode)
    ensures Sorted(SortSegments(s, mode), mode)
    ensures multiset(SortSegments(s, mode)) == multiset(s)
    decreases |s|
  {
    if s != [] {
      SortSegmentsSorted(s[..|s| - 1], mode);
      InsertSorted(s[|s| - 1], SortSegments(s[..|s| - 1], mode), mode);
      InsertPermutes(s[|s| - 1], SortSegments(s[..|s| - 1], mode), mode);
      assert s == s[..|s| - 1] + [s[|s| - 1]];
    }
  }

  /** Sorting is stable: the segments sharing a key come out in the order
      they were kept. */
  lemma {:induction false} SortSegmentsStable(s: seq<SplitSegment>, mode: SortMode, v: real)
    ensures WithKey(SortSegments(s, mode), mode, v) == WithKey(s, mode, v)
    decreases |s|
  {
    if s != [] {
      SortSegmentsStable(s[..|s| - 1], mode, v);
      SortSegmentsSorted(s[..|s| - 1], mode);
      InsertWithKey(s[|s| - 1], SortSegments(s[..|s| - 1], mode), mode, v);
    }
  }

  /** In 'time' mode start times ascend, in 'score' mode viral scores descend. */
  lemma SortSegmentsOrder(s: seq<SplitSegment>, mode: SortMode)
    ensures var r := SortSegments(s, mode);
      forall i, j :: 0 <= i < j < |r| ==>
        (mode == ByTime ==> r[i].startTime <= r[j].startTime)
        && (mode == ByScore ==> r[i].viralScore >= r[j].viralScore)
  {
    SortSegmentsSorted(s, mode);
  }

  /** An already sorted list is left as it is. */
  lemma {:induction false} SortSegmentsOfSorted(s: seq<SplitSegment>, mode: SortMode)
    requires Sorted(s, mode)
    ensures SortSegments(s, mode) == s
    decreases |s|
  {
    if s != [] {
      var init := s[..|s| - 1];
      assert Sorted(init, mode);
      SortSegmentsOfSorted(init, mode);
      InsertAtEnd(s[|s| - 1], init, mode);
    }
  }

  lemma {:induction false} InsertAtEnd(x: SplitSegment, t: seq<SplitSegment>, mode: SortMode)
    requires forall i :: 0 <= i < |t| ==> Key(t[i], mode) <= Key(x, mode)
    ensures Insert(x, t, mode) == t + [x]
    decreases |t|
  {
    if t != [] {
      InsertAtEnd(x, t[1..], mode);
      assert t == [t[0]] + t[1..];
    }
  }
}
