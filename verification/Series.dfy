/** Sorted sample series: insertion, expiry by time, and the cap on samples.  Expiry
    and the cap commute with insertion, so dropping samples early loses nothing that
    a later look would have shown. */
module Series {
  import opened WideArithmetic
  import opened Text

  /** One measurement: its time and up to three values. */
  datatype Sample = Sample(at: int, first: uint64, second: uint64, third: uint64)

  function Compare(a: Sample, b: Sample): (order: int)
    ensures order in {-1, 0, 1} && (order == 0 <==> a == b)
    ensures order <= 0 ==> a.at <= b.at
  {
    Then(CompareInts(a.at, b.at), Then(CompareInts(a.first, b.first),
    Then(CompareInts(a.second, b.second), CompareInts(a.third, b.third))))
  }

  lemma CompareOrder(a: Sample, b: Sample, c: Sample)
    ensures Compare(a, b) == -Compare(b, a)
    ensures Compare(a, b) <= 0 && Compare(b, c) <= 0 ==> Compare(a, c) <= 0
  {
  }

  ghost predicate Sorted(s: seq<Sample>) {
    forall i, j :: 0 <= i < j < |s| ==> Compare(s[i], s[j]) <= 0
  }

  function Last(s: seq<Sample>): Sample
    requires s != []
  {
    s[|s| - 1]
  }

  function Front(s: seq<Sample>): seq<Sample>
    requires s != []
  {
    s[..|s| - 1]
  }

  function Insert(s: seq<Sample>, x: Sample): (r: seq<Sample>)
    ensures |r| == |s| + 1
  {
    if s == [] || Compare(Last(s), x) <= 0 then s + [x] else Insert(Front(s), x) + [Last(s)]
  }

  /** The series in order; equal samples are indistinguishable. */
  function Sort(s: seq<Sample>): seq<Sample> {
    if s == [] then [] else Insert(Sort(Front(s)), Last(s))
  }

  /** The samples that are not older than the cutoff. */
  function From(s: seq<Sample>, cutoff: int): (r: seq<Sample>)
    ensures |r| <= |s|
  {
    if s == [] then [] else From(Front(s), cutoff) + (if Last(s).at >= cutoff then [Last(s)] else [])
  }

  function Newest(s: seq<Sample>, limit: nat): (r: seq<Sample>)
    ensures |r| == if |s| <= limit then |s| else limit
  {
    if |s| <= limit then s else s[|s| - limit..]
  }

  // ---------------------------------------------------------------------------
  // Elements and order

  lemma {:induction false} InsertElements(s: seq<Sample>, x: Sample, y: Sample)
    ensures y in Insert(s, x) <==> y == x || y in s
  {
    if s != [] && Compare(Last(s), x) > 0 {
      InsertElements(Front(s), x, y);
      assert s == Front(s) + [Last(s)];
    }
  }

  lemma {:induction false} FromElements(s: seq<Sample>, cutoff: int, y: Sample)
    ensures y in From(s, cutoff) <==> y in s && y.at >= cutoff
  {
    if s != [] {
      FromElements(Front(s), cutoff, y);
      assert s == Front(s) + [Last(s)];
    }
  }

  lemma SortedSnoc(s: seq<Sample>, x: Sample)
    requires Sorted(s) && forall y :: y in s ==> Compare(y, x) <= 0
    ensures Sorted(s + [x])
  {
    forall i, j | 0 <= i < j < |s + [x]| ensures Compare((s + [x])[i], (s + [x])[j]) <= 0 {
      if j == |s| { assert s[i] in s; } else { assert Compare(s[i], s[j]) <= 0; }
    }
  }

  lemma FrontSorted(s: seq<Sample>)
    requires Sorted(s) && s != []
    ensures Sorted(Front(s)) && forall y :: y in s ==> Compare(y, Last(s)) <= 0
  {
    forall i, j | 0 <= i < j < |Front(s)| ensures Compare(Front(s)[i], Front(s)[j]) <= 0 { assert Compare(s[i], s[j]) <= 0; }
    forall y | y in s ensures Compare(y, Last(s)) <= 0 {
      var i :| 0 <= i < |s| && s[i] == y;
      if i < |s| - 1 { assert Compare(s[i], s[|s| - 1]) <= 0; }
    }
  }

  lemma {:induction false} InsertKeepsSorted(s: seq<Sample>, x: Sample)
    requires Sorted(s)
    ensures Sorted(Insert(s, x))
  {
    hide Compare;
    if s == [] || Compare(Last(s), x) <= 0 {
      forall y | y in s ensures Compare(y, x) <= 0 {
        FrontSorted(s);
        CompareOrder(y, Last(s), x);
      }
      SortedSnoc(s, x);
    } else {
      FrontSorted(s);
      InsertKeepsSorted(Front(s), x);
      forall y | y in Insert(Front(s), x) ensures Compare(y, Last(s)) <= 0 {
        InsertElements(Front(s), x, y);
        CompareOrder(Last(s), x, x);
        assert y in Front(s) ==> y in s;
      }
      SortedSnoc(Insert(Front(s), x), Last(s));
    }
  }

  /** Sorting a sorted series with one sample appended inserts that sample. */
  lemma {:induction false} SortAppended(s: seq<Sample>, x: Sample)
    requires Sorted(s)
    ensures Sort(s + [x]) == Insert(s, x)
  {
    assert Front(s + [x]) == s && Last(s + [x]) == x;
    SortSorted(s);
  }

  lemma {:induction false} SortSorted(s: seq<Sample>)
    requires Sorted(s)
    ensures Sort(s) == s
  {
    if s != [] {
      FrontSorted(s);
      SortSorted(Front(s));
      assert s == Front(s) + [Last(s)];
      if Front(s) != [] { assert Last(Front(s)) in s; }
    }
  }

  // ---------------------------------------------------------------------------
  // Expiry and the cap are suffixes

  lemma {:induction false} AllOld(s: seq<Sample>, cutoff: int)
    requires Sorted(s) && (s != [] ==> Last(s).at < cutoff)
    ensures From(s, cutoff) == []
  {
    if s != [] {
      FrontSorted(s);
      if Front(s) != [] { assert Last(Front(s)) in s; }
      AllOld(Front(s), cutoff);
    }
  }

  lemma NewestSnoc(s: seq<Sample>, x: Sample, limit: nat)
    requires limit > 0
    ensures Newest(s + [x], limit) == Newest(s, limit - 1) + [x]
  {
  }

  /** Expired samples are the oldest, so expiry and the cap can be applied in either
      order. */
  lemma {:induction false} FromNewest(s: seq<Sample>, limit: nat, cutoff: int)
    requires Sorted(s)
    ensures From(Newest(s, limit), cutoff) == Newest(From(s, cutoff), limit)
  {
    if limit == 0 {
      assert Newest(s, 0) == [] && Newest(From(s, cutoff), 0) == [];
    } else if s != [] {
      FrontSorted(s);
      assert s == Front(s) + [Last(s)];
      NewestSnoc(Front(s), Last(s), limit);
      var capped := Newest(s, limit);
      assert Front(capped) == Newest(Front(s), limit - 1) && Last(capped) == Last(s);
      FromNewest(Front(s), limit - 1, cutoff);
      if Last(s).at >= cutoff {
        NewestSnoc(From(Front(s), cutoff), Last(s), limit);
      } else {
        AllOld(s, cutoff);
        AllOldNewest(s, limit, cutoff);
      }
    }
  }

  lemma AllOldNewest(s: seq<Sample>, limit: nat, cutoff: int)
    requires Sorted(s) && s != [] && Last(s).at < cutoff
    ensures From(Newest(s, limit), cutoff) == []
  {
    NewestSorted(s, limit);
    hide Sorted, From;
    var capped := Newest(s, limit);
    if capped != [] { assert Last(capped) == Last(s); }
    AllOld(capped, cutoff);
  }

  lemma {:induction false} FromInsert(s: seq<Sample>, x: Sample, cutoff: int)
    requires Sorted(s)
    ensures From(Insert(s, x), cutoff) == if x.at >= cutoff then Insert(From(s, cutoff), x) else From(s, cutoff)
  {
    hide Compare;
    if s == [] || Compare(Last(s), x) <= 0 {
      assert Front(s + [x]) == s && Last(s + [x]) == x;
      var kept := From(s, cutoff);
      if kept != [] {
        FromElements(s, cutoff, Last(kept));
        FrontSorted(s);
        CompareOrder(Last(kept), Last(s), x);
      }
    } else {
      FrontSorted(s);
      var rest := Insert(Front(s), x);
      assert Front(rest + [Last(s)]) == rest && Last(rest + [Last(s)]) == Last(s);
      FromInsert(Front(s), x, cutoff);
      CompareOrder(Last(s), x, x);
      if x.at >= cutoff {
        var kept := From(Front(s), cutoff) + [Last(s)];
        assert Front(kept) == From(Front(s), cutoff) && Last(kept) == Last(s);
      }
    }
  }

  lemma InsertLast(s: seq<Sample>, y: Sample, x: Sample)
    requires Compare(y, x) > 0
    ensures Insert(s + [y], x) == Insert(s, x) + [y]
  {
    hide Compare;
    assert Front(s + [y]) == s && Last(s + [y]) == y;
  }

  lemma InsertAfter(s: seq<Sample>, y: Sample, x: Sample)
    requires Compare(y, x) <= 0
    ensures Insert(s + [y], x) == (s + [y]) + [x]
  {
    hide Compare;
    assert Last(s + [y]) == y;
  }

  /** A sample the cap dropped earlier can never come back. */
  lemma {:induction false} NewestInsert(s: seq<Sample>, x: Sample, limit: nat)
    requires Sorted(s)
    ensures Newest(Insert(Newest(s, limit), x), limit) == Newest(Insert(s, x), limit)
  {
    hide Compare, Insert, Sorted;
    if limit == 0 {
      assert Newest(Insert(Newest(s, 0), x), 0) == [] == Newest(Insert(s, x), 0);
    } else if s != [] && |s| > limit {
      FrontSorted(s);
      var front, last := Front(s), Last(s);
      assert s == front + [last];
      var capped := Newest(front, limit - 1);
      NewestSnoc(front, last, limit);
      if Compare(last, x) <= 0 {
        InsertAfter(front, last, x);
        InsertAfter(capped, last, x);
        NewestSnoc(s, x, limit);
        NewestSnoc(capped + [last], x, limit);
        NewestAgain(s, limit);
      } else {
        NewestInsert(front, x, limit - 1);
        InsertLast(front, last, x);
        InsertLast(capped, last, x);
        NewestSnoc(Insert(front, x), last, limit);
        NewestSnoc(Insert(capped, x), last, limit);
      }
    }
  }

  lemma NewestAgain(s: seq<Sample>, limit: nat)
    requires limit > 0
    ensures Newest(Newest(s, limit), limit - 1) == Newest(s, limit - 1)
  {
  }

  lemma {:induction false} FromFrom(s: seq<Sample>, early: int, late: int)
    requires early <= late
    ensures From(From(s, early), late) == From(s, late)
  {
    if s != [] {
      FromFrom(Front(s), early, late);
      if Last(s).at >= early {
        var kept := From(Front(s), early) + [Last(s)];
        assert Front(kept) == From(Front(s), early) && Last(kept) == Last(s);
      } else {
        assert From(Front(s), early) + [] == From(Front(s), early);
      }
      assert From(Front(s), late) + [] == From(Front(s), late);
    }
  }

  /** What a stored series must satisfy against the full log of a series: from some
      cutoff on, it shows exactly the newest samples of the log. */
  ghost predicate Agrees(stored: seq<Sample>, log: seq<Sample>, limit: nat, pruned: int) {
    forall cutoff :: cutoff >= pruned ==> From(stored, cutoff) == Newest(From(log, cutoff), limit)
  }

  lemma InsertAgrees(stored: seq<Sample>, log: seq<Sample>, limit: nat, pruned: int, x: Sample)
    requires Sorted(stored) && Sorted(log) && Agrees(stored, log, limit, pruned)
    ensures Agrees(Newest(Insert(stored, x), limit), Insert(log, x), limit, pruned)
  {
    hide Compare;
    InsertKeepsSorted(stored, x);
    forall cutoff | cutoff >= pruned
      ensures From(Newest(Insert(stored, x), limit), cutoff) == Newest(From(Insert(log, x), cutoff), limit)
    {
      FromNewest(Insert(stored, x), limit, cutoff);
      FromInsert(stored, x, cutoff);
      FromInsert(log, x, cutoff);
      FromSorted(log, cutoff);
      NewestInsert(From(log, cutoff), x, limit);
      NewestTwice(From(log, cutoff), limit);
    }
  }

  lemma NewestSorted(s: seq<Sample>, limit: nat)
    requires Sorted(s)
    ensures Sorted(Newest(s, limit)) && forall y :: y in Newest(s, limit) ==> y in s
  {
    var kept := Newest(s, limit);
    forall i, j | 0 <= i < j < |kept| ensures Compare(kept[i], kept[j]) <= 0 {
      assert kept[i] == s[|s| - |kept| + i] && kept[j] == s[|s| - |kept| + j];
    }
  }

  lemma NewestTwice(s: seq<Sample>, limit: nat)
    ensures Newest(Newest(s, limit), limit) == Newest(s, limit)
  {
  }

  lemma {:induction false} FromSorted(s: seq<Sample>, cutoff: int)
    requires Sorted(s)
    ensures Sorted(From(s, cutoff))
  {
    hide Compare;
    if s != [] {
      FrontSorted(s);
      FromSorted(Front(s), cutoff);
      forall y | y in From(Front(s), cutoff) ensures Compare(y, Last(s)) <= 0 {
        FromElements(Front(s), cutoff, y);
        assert y in s;
      }
      SortedSnoc(From(Front(s), cutoff), Last(s));
      assert From(Front(s), cutoff) + [] == From(Front(s), cutoff);
    }
  }

  lemma PruneAgrees(stored: seq<Sample>, log: seq<Sample>, limit: nat, pruned: int, cutoff: int, pruned': int)
    requires Agrees(stored, log, limit, pruned) && pruned' >= pruned && pruned' >= cutoff
    ensures Agrees(From(stored, cutoff), log, limit, pruned')
  {
    forall c | c >= pruned' ensures From(From(stored, cutoff), c) == Newest(From(log, c), limit) {
      FromFrom(stored, cutoff, c);
    }
  }
}
