/** Sorted copies of a sample window, and what the element at a rank of one says about the window itself. */
module OrderStatistics {

  predicate IsSorted(s: seq<real>) {
    forall i, j :: 0 <= i < j < |s| ==> s[i] <= s[j]
  }

  function Insert(x: real, s: seq<real>): (r: seq<real>) {
    if s == [] || x <= s[0] then [x] + s else [s[0]] + Insert(x, s[1..])
  }

  /** What the library sort returns. */
  function Sorted(s: seq<real>): (r: seq<real>) {
    if s == [] then [] else Insert(s[|s| - 1], Sorted(s[..|s| - 1]))
  }

  function Below(s: seq<real>, v: real): (n: nat) {
    if s == [] then 0 else Below(s[1..], v) + if s[0] < v then 1 else 0
  }

  function AtMost(s: seq<real>, v: real): (n: nat) {
    if s == [] then 0 else AtMost(s[1..], v) + if s[0] <= v then 1 else 0
  }

  function Sum(s: seq<real>): (t: real) {
    if s == [] then 0.0 else Sum(s[1..]) + s[0]
  }

  /** `v` has rank `r` in `s`, counting from zero, whatever order `s` is in. */
  predicate AtRank(s: seq<real>, r: nat, v: real) {
    v in s && Below(s, v) <= r < AtMost(s, v)
  }

  lemma {:induction false} InsertAdds(x: real, s: seq<real>)
    ensures multiset(Insert(x, s)) == multiset(s) + multiset{x}
    decreases |s|
  {
    if s != [] && x > s[0] {
      InsertAdds(x, s[1..]);
      assert s == [s[0]] + s[1..];
    }
  }

  lemma {:induction false} InsertKeepsSorted(x: real, s: seq<real>)
    requires IsSorted(s)
    ensures IsSorted(Insert(x, s))
    decreases |s|
  {
    if s != [] && x > s[0] {
      var rest := Insert(x, s[1..]);
      InsertKeepsSorted(x, s[1..]);
      InsertIsBounded(x, s[1..], s[0]);
      assert Insert(x, s) == [s[0]] + rest;
    }
  }

  lemma {:induction false} InsertIsBounded(x: real, s: seq<real>, low: real)
    requires low <= x && forall i :: 0 <= i < |s| ==> low <= s[i]
    ensures forall i :: 0 <= i < |Insert(x, s)| ==> low <= Insert(x, s)[i]
    decreases |s|
  {
    if s != [] && x > s[0] {
      InsertIsBounded(x, s[1..], low);
    }
  }

  lemma {:induction false} SortedSorts(s: seq<real>)
    ensures IsSorted(Sorted(s))
    ensures multiset(Sorted(s)) == multiset(s)
    ensures |Sorted(s)| == |s|
    decreases |s|
  {
    if s != [] {
      SortedSorts(s[..|s| - 1]);
      InsertAdds(s[|s| - 1], Sorted(s[..|s| - 1]));
      InsertKeepsSorted(s[|s| - 1], Sorted(s[..|s| - 1]));
      assert s == s[..|s| - 1] + [s[|s| - 1]];
      assert |Sorted(s)| == |multiset(Sorted(s))| == |multiset(s)|;
    }
  }

  lemma {:induction false} TalliesInsert(x: real, s: seq<real>, v: real)
    ensures Below(Insert(x, s), v) == Below(s, v) + if x < v then 1 else 0
    ensures AtMost(Insert(x, s), v) == AtMost(s, v) + if x <= v then 1 else 0
    ensures Sum(Insert(x, s)) == Sum(s) + x
    decreases |s|
  {
    if s == [] || x <= s[0] {
      assert ([x] + s)[1..] == s;
    } else {
      TalliesInsert(x, s[1..], v);
      assert ([s[0]] + Insert(x, s[1..]))[1..] == Insert(x, s[1..]);
    }
  }

  lemma {:induction false} TalliesAppend(s: seq<real>, x: real, v: real)
    ensures Below(s + [x], v) == Below(s, v) + if x < v then 1 else 0
    ensures AtMost(s + [x], v) == AtMost(s, v) + if x <= v then 1 else 0
    ensures Sum(s + [x]) == Sum(s) + x
    decreases |s|
  {
    if s != [] {
      assert (s + [x])[1..] == s[1..] + [x];
      TalliesAppend(s[1..], x, v);
    }
  }

  /** Sorting moves nothing across any threshold and keeps the total. */
  lemma {:induction false} SortedKeepsTallies(s: seq<real>, v: real)
    ensures Below(Sorted(s), v) == Below(s, v)
    ensures AtMost(Sorted(s), v) == AtMost(s, v)
    ensures Sum(Sorted(s)) == Sum(s)
    decreases |s|
  {
    if s != [] {
      var init, last := s[..|s| - 1], s[|s| - 1];
      SortedKeepsTallies(init, v);
      TalliesInsert(last, Sorted(init), v);
      TalliesAppend(init, last, v);
      assert s == init + [last];
    }
  }

  lemma {:induction false} TalliesOfSorted(s: seq<real>, r: nat)
    requires IsSorted(s) && r < |s|
    ensures Below(s, s[r]) <= r < AtMost(s, s[r])
    decreases r, |s|
  {
    if r == 0 {
      NothingBelow(s, s[0]);
    } else {
      assert s[1..][r - 1] == s[r];
      TalliesOfSorted(s[1..], r - 1);
    }
  }

  lemma {:induction false} NothingBelow(s: seq<real>, v: real)
    requires forall i :: 0 <= i < |s| ==> v <= s[i]
    ensures Below(s, v) == 0
    decreases |s|
  {
    if s != [] {
      NothingBelow(s[1..], v);
    }
  }

  lemma {:induction false} ThresholdsNest(s: seq<real>, v: real, w: real)
    requires v < w
    ensures AtMost(s, v) <= Below(s, w)
    decreases |s|
  {
    if s != [] {
      ThresholdsNest(s[1..], v, w);
    }
  }

  lemma RankIsUnique(s: seq<real>, r: nat, v: real, w: real)
    requires AtRank(s, r, v) && AtRank(s, r, w)
    ensures v == w
  {
    if v < w {
      ThresholdsNest(s, v, w);
    } else if w < v {
      ThresholdsNest(s, w, v);
    }
  }

  /** Indexing the sorted copy finds exactly the value of that rank in the unsorted window. */
  lemma RankExactly(s: seq<real>, r: nat, v: real)
    requires r < |s|
    ensures |Sorted(s)| == |s|
    ensures Sorted(s)[r] == v <==> AtRank(s, r, v)
  {
    SortedSorts(s);
    var found := Sorted(s)[r];
    TalliesOfSorted(Sorted(s), r);
    SortedKeepsTallies(s, found);
    assert found in multiset(Sorted(s));
    assert AtRank(s, r, found);
    if AtRank(s, r, v) {
      RankIsUnique(s, r, v, found);
    }
  }

  lemma {:induction false} SumIsBetween(s: seq<real>, low: real, high: real)
    requires forall i :: 0 <= i < |s| ==> low <= s[i] <= high
    ensures low * |s| as real <= Sum(s) <= high * |s| as real
    decreases |s|
  {
    if s != [] {
      SumIsBetween(s[1..], low, high);
      var n := |s[1..]| as real;
      assert |s| as real == n + 1.0;
      assert low * |s| as real == low * n + low;
      assert high * |s| as real == high * n + high;
    }
  }
}
