/** Per-competitor activity counts and their ranking, as the digest fallback
    computes them: a dictionary counter filled in item order, whose entries
    (in insertion order) are sorted by count, descending, with Python's
    stable `sorted(..., reverse=True)`. */
module Ranking {
  import opened Text

  /** One entry of the activity counter: a competitor and its number of news items. */
  datatype Activity = Activity(competitor: string, count: nat)

  /** How often `x` occurs in `s`. */
  function Occurrences(s: seq<string>, x: string): nat {
    if s == [] then 0
    else Occurrences(s[..|s| - 1], x) + (if s[|s| - 1] == x then 1 else 0)
  }

  /** The distinct elements of `s` in order of first appearance: the key order
      of a Python dictionary filled from `s`. */
  function FirstAppearances(s: seq<string>): (d: seq<string>)
    ensures forall x :: x in d <==> x in s
    ensures forall i, j :: 0 <= i < j < |d| ==> d[i] != d[j]
  {
    if s == [] then []
    else
      var d := FirstAppearances(s[..|s| - 1]);
      assert forall x :: x in s <==> x in s[..|s| - 1] || x == s[|s| - 1];
      if s[|s| - 1] in d then d else d + [s[|s| - 1]]
  }

  /** An earlier key of `d` occurs in `s` before the first occurrence of any
      later key. */
  predicate KeysInOrder(s: seq<string>, d: seq<string>) {
    forall i, j :: 0 <= i < j < |d| ==> exists p :: 0 <= p < |s| && s[p] == d[i] && d[j] !in s[..p]
  }

  /** The keys come in order of first appearance. */
  lemma {:induction false} FirstAppearancesInOrder(s: seq<string>)
    ensures KeysInOrder(s, FirstAppearances(s))
  {
    if s != [] {
      var init := s[..|s| - 1];
      var last := s[|s| - 1];
      var d := FirstAppearances(init);
      var r := FirstAppearances(s);
      FirstAppearancesInOrder(init);
      assert r == if last in d then d else d + [last];
      forall i, j | 0 <= i < j < |r|
        ensures exists p :: 0 <= p < |s| && s[p] == r[i] && r[j] !in s[..p]
      {
        assert r[i] == d[i];
        if j < |d| {
          assert r[j] == d[j];
          assert exists p :: 0 <= p < |init| && init[p] == d[i] && d[j] !in init[..p];
          var p :| 0 <= p < |init| && init[p] == d[i] && d[j] !in init[..p];
          assert s[p] == r[i] && s[..p] == init[..p];
        } else {
          assert r[j] == last && last !in init;
          assert d[i] in init;
          var p :| 0 <= p < |init| && init[p] == d[i];
          assert last !in init[..p];
          assert s[p] == r[i] && s[..p] == init[..p];
        }
      }
    }
  }

  /** The counter's entries for the keys `keys`, in that order. */
  function Tally(keys: seq<string>, names: seq<string>): (act: seq<Activity>)
    ensures |act| == |keys|
  {
    seq(|keys|, i requires 0 <= i < |keys| => Activity(keys[i], Occurrences(names, keys[i])))
  }

  /** The counter after one pass over `names`, as `dict.items()` lists it. */
  function ActivityOf(names: seq<string>): seq<Activity> {
    Tally(FirstAppearances(names), names)
  }

  function TotalCount(act: seq<Activity>): nat {
    if act == [] then 0 else TotalCount(act[..|act| - 1]) + act[|act| - 1].count
  }

  lemma {:induction false} OccurrencesAppend(s: seq<string>, y: string, x: string)
    ensures Occurrences(s + [y], x) == Occurrences(s, x) + (if y == x then 1 else 0)
  {
    assert (s + [y])[..|s|] == s;
  }

  lemma {:induction false} OccurrencesAbsent(s: seq<string>, x: string)
    requires x !in s
    ensures Occurrences(s, x) == 0
  {
    if s != [] {
      OccurrencesAbsent(s[..|s| - 1], x);
    }
  }

  lemma {:induction false} OccurrencesDistinct(d: seq<string>, x: string)
    requires forall i, j :: 0 <= i < j < |d| ==> d[i] != d[j]
    ensures Occurrences(d, x) == if x in d then 1 else 0
  {
    if d != [] {
      var init := d[..|d| - 1];
      OccurrencesDistinct(init, x);
      assert forall y :: y in d <==> y in init || y == d[|d| - 1];
      if x == d[|d| - 1] {
        assert x !in init;
      }
    }
  }

  /** One more name raises the counts of the tallied keys by its occurrences among them. */
  lemma {:induction false} TallyStep(keys: seq<string>, names: seq<string>, x: string)
    ensures TotalCount(Tally(keys, names + [x])) == TotalCount(Tally(keys, names)) + Occurrences(keys, x)
  {
    if keys != [] {
      var init := keys[..|keys| - 1];
      var last := keys[|keys| - 1];
      TallyStep(init, names, x);
      assert Tally(keys, names + [x])[..|init|] == Tally(init, names + [x]);
      assert Tally(keys, names)[..|init|] == Tally(init, names);
      OccurrencesAppend(names, x, last);
    }
  }

  /** The counts add up to the number of names counted. */
  lemma {:induction false} ActivityTotal(names: seq<string>)
    ensures TotalCount(ActivityOf(names)) == |names|
  {
    if names != [] {
      var init := names[..|names| - 1];
      var x := names[|names| - 1];
      assert names == init + [x];
      ActivityTotal(init);
      var d := FirstAppearances(init);
      TallyStep(d, init, x);
      OccurrencesDistinct(d, x);
      if x !in d {
        var d' := d + [x];
        assert Tally(d', names)[..|d|] == Tally(d, names);
        OccurrencesAbsent(init, x);
        OccurrencesAppend(init, x, x);
      }
    }
  }

  /** Each entry counts its competitor's items, every counted competitor has
      exactly one entry, and no entry is empty. */
  lemma ActivityEntries(names: seq<string>)
    ensures forall a :: a in ActivityOf(names) ==> a.count == Occurrences(names, a.competitor) && a.count >= 1
    ensures forall x :: x in names <==> exists a :: a in ActivityOf(names) && a.competitor == x
    ensures forall i, j :: 0 <= i < j < |ActivityOf(names)| ==>
      ActivityOf(names)[i].competitor != ActivityOf(names)[j].competitor
  {
    var d := FirstAppearances(names);
    var act := ActivityOf(names);
    forall a | a in act
      ensures a.count == Occurrences(names, a.competitor) && a.count >= 1
    {
      var i :| 0 <= i < |act| && act[i] == a;
      OccurrencesPositive(names, d[i]);
    }
    forall x | x in names
      ensures exists a :: a in act && a.competitor == x
    {
      var i :| 0 <= i < |d| && d[i] == x;
      assert act[i] in act;
    }
  }

  lemma {:induction false} OccurrencesPositive(s: seq<string>, x: string)
    requires x in s
    ensures Occurrences(s, x) >= 1
  {
    var init := s[..|s| - 1];
    if s[|s| - 1] != x {
      assert x in init;
      OccurrencesPositive(init, x);
    }
  }

  // ---------------------------------------------------------------- sorting

  predicate NonIncreasing(act: seq<Activity>) {
    forall i, j :: 0 <= i < j < |act| ==> act[i].count >= act[j].count
  }

  /** Places `a` after every entry whose count is at least its own. */
  function InsertByCount(sorted: seq<Activity>, a: Activity): (r: seq<Activity>)
    ensures multiset(r) == multiset(sorted) + multiset{a} && |r| == |sorted| + 1
    ensures NonIncreasing(sorted) ==> NonIncreasing(r)
  {
    if sorted == [] then [a]
    else if sorted[0].count < a.count then [a] + sorted
    else
      var rest := InsertByCount(sorted[1..], a);
      assert sorted == [sorted[0]] + sorted[1..];
      assert NonIncreasing(sorted) ==> NonIncreasing([sorted[0]] + rest) by {
        if NonIncreasing(sorted) {
          BoundedByHead(sorted, a, rest);
        }
      }
      [sorted[0]] + rest
  }

  /** Every entry of `rest`, a permutation of the tail of `sorted` plus `a`,
      is at most the head of `sorted`. */
  lemma BoundedByHead(sorted: seq<Activity>, a: Activity, rest: seq<Activity>)
    requires sorted != [] && NonIncreasing(sorted) && a.count <= sorted[0].count
    requires multiset(rest) == multiset(sorted[1..]) + multiset{a}
    requires NonIncreasing(rest)
    ensures NonIncreasing([sorted[0]] + rest)
  {
    var r := [sorted[0]] + rest;
    forall k | 0 <= k < |rest|
      ensures rest[k].count <= sorted[0].count
    {
      assert rest[k] in multiset(rest);
      if rest[k] != a {
        assert rest[k] in multiset(sorted[1..]);
        var m :| 0 <= m < |sorted[1..]| && sorted[1..][m] == rest[k];
        assert sorted[m + 1] == rest[k];
      }
    }
    forall i, j | 0 <= i < j < |r|
      ensures r[i].count >= r[j].count
    {
      if i > 0 {
        assert r[i] == rest[i - 1] && r[j] == rest[j - 1];
      } else {
        assert r[j] == rest[j - 1];
      }
    }
  }

  /** Python's stable `sorted(entries, key=count, reverse=True)`, as an insertion
      sort that takes the entries in their original order. */
  function RankByCount(act: seq<Activity>): (r: seq<Activity>)
    ensures NonIncreasing(r)
    ensures multiset(r) == multiset(act) && |r| == |act|
  {
    if act == [] then []
    else
      assert act == act[..|act| - 1] + [act[|act| - 1]];
      InsertByCount(RankByCount(act[..|act| - 1]), act[|act| - 1])
  }

  /** The entries whose count is `c`, in order. */
  function WithCount(act: seq<Activity>, c: nat): seq<Activity> {
    if act == [] then []
    else (if act[0].count == c then [act[0]] else []) + WithCount(act[1..], c)
  }

  lemma {:induction false} WithCountAppend(a: seq<Activity>, b: seq<Activity>, c: nat)
    ensures WithCount(a + b, c) == WithCount(a, c) + WithCount(b, c)
  {
    if a == [] {
      assert a + b == b;
    } else {
      var ab := a + b;
      assert ab[0] == a[0] && ab[1..] == a[1..] + b;
      WithCountAppend(a[1..], b, c);
      assert WithCount(ab, c) == (if a[0].count == c then [a[0]] else []) + WithCount(a[1..] + b, c);
    }
  }

  lemma {:induction false} WithCountBelow(act: seq<Activity>, c: nat)
    requires forall i :: 0 <= i < |act| ==> act[i].count < c
    ensures WithCount(act, c) == []
  {
    if act != [] {
      WithCountBelow(act[1..], c);
    }
  }

  lemma {:induction false} WithCountInsert(sorted: seq<Activity>, a: Activity, c: nat)
    requires NonIncreasing(sorted)
    ensures WithCount(InsertByCount(sorted, a), c) == WithCount(sorted, c) + (if a.count == c then [a] else [])
  {
    if sorted == [] {
    } else if sorted[0].count < a.count {
      var r := [a] + sorted;
      assert r[1..] == sorted;
      if a.count == c {
        WithCountBelow(sorted, c);
      }
    } else {
      WithCountInsert(sorted[1..], a, c);
      var r := [sorted[0]] + InsertByCount(sorted[1..], a);
      assert r[1..] == InsertByCount(sorted[1..], a);
    }
  }

  /** The ranking is stable: entries with equal counts keep their original order. */
  lemma {:induction false} RankByCountStable(act: seq<Activity>, c: nat)
    ensures WithCount(RankByCount(act), c) == WithCount(act, c)
  {
    if act != [] {
      var init := act[..|act| - 1];
      var last := act[|act| - 1];
      var ranked := RankByCount(init);
      assert RankByCount(act) == InsertByCount(ranked, last);
      RankByCountStable(init, c);
      WithCountInsert(ranked, last, c);
      assert WithCount(RankByCount(act), c) == WithCount(init, c) + (if last.count == c then [last] else []);
      InitLast(act);
      WithCountAppend(init, [last], c);
      WithCountSingle(last, c);
      assert WithCount(act, c) == WithCount(init, c) + (if last.count == c then [last] else []);
    }
  }


  lemma WithCountSingle(a: Activity, c: nat)
    ensures WithCount([a], c) == if a.count == c then [a] else []
  {
    assert [a][1..] == [];
  }

  /** The three most active competitors, as the digest lists them. */
  function TopActive(names: seq<string>): seq<Activity> {
    Take3(RankByCount(ActivityOf(names)))
  }

  function Take3(s: seq<Activity>): (r: seq<Activity>)
    ensures |r| <= 3 && |r| <= |s| && r == s[..|r|]
    ensures |s| >= 3 ==> |r| == 3
    ensures |s| < 3 ==> r == s
  {
    if |s| <= 3 then s else s[..3]
  }

  /** At most three entries, by decreasing count, and no competitor left out of
      them has more items than any competitor listed. */
  lemma TopActiveAreMostActive(names: seq<string>)
    ensures |TopActive(names)| <= 3
    ensures NonIncreasing(TopActive(names))
    ensures forall a, t :: a in ActivityOf(names) && a !in TopActive(names) && t in TopActive(names) ==> t.count >= a.count
  {
    var act := ActivityOf(names);
    var rank := RankByCount(act);
    var top := TopActive(names);
    forall a, t | a in act && a !in top && t in top
      ensures t.count >= a.count
    {
      assert a in multiset(rank);
      var j :| 0 <= j < |rank| && rank[j] == a;
      var i :| 0 <= i < |top| && top[i] == t;
      assert j >= |top|;
    }
  }
}
