/** The text key of a set of selected workers: their IDs sorted and joined by NUL.
    For non-empty NUL-free IDs two selections share a key exactly when they are the
    same set. */
module WorkerKeys {
  import opened Text

  const NUL: char := '\0'

  predicate ValidID(id: string) {
    id != "" && NUL !in id
  }

  // ---------------------------------------------------------------------------
  // Sorting

  function Insert(id: string, sorted: seq<string>): seq<string> {
    if sorted == [] then [id]
    else if CompareStrings(id, sorted[0]) <= 0 then [id] + sorted
    else [sorted[0]] + Insert(id, sorted[1..])
  }

  function Sorted(ids: seq<string>): seq<string> {
    if ids == [] then [] else Insert(ids[|ids| - 1], Sorted(ids[..|ids| - 1]))
  }

  /** Each ID is smaller than all that follow. */
  ghost predicate Increasing(ids: seq<string>) {
    ids != [] ==> (forall x :: x in ids[1..] ==> CompareStrings(ids[0], x) < 0) && Increasing(ids[1..])
  }

  lemma {:induction false} InsertElements(id: string, sorted: seq<string>, x: string)
    ensures x in Insert(id, sorted) <==> x == id || x in sorted
  {
    if sorted != [] && CompareStrings(id, sorted[0]) > 0 { InsertElements(id, sorted[1..], x); }
  }

  lemma {:induction false} SortedElements(ids: seq<string>, x: string)
    ensures x in Sorted(ids) <==> x in ids
  {
    if ids != [] {
      SortedElements(ids[..|ids| - 1], x);
      InsertElements(ids[|ids| - 1], Sorted(ids[..|ids| - 1]), x);
      assert ids == ids[..|ids| - 1] + [ids[|ids| - 1]];
    }
  }

  lemma StrictlyAfter(a: string, b: string, c: string)
    requires CompareStrings(a, b) < 0 && CompareStrings(b, c) < 0
    ensures CompareStrings(a, c) < 0
  {
    CompareStringsTransitive(a, b, c);
    CompareStringsFlips(b, c);
  }

  lemma {:induction false} InsertKeepsIncreasing(id: string, sorted: seq<string>)
    requires Increasing(sorted) && id !in sorted
    ensures Increasing(Insert(id, sorted))
  {
    if sorted != [] {
      if CompareStrings(id, sorted[0]) <= 0 {
        forall x | x in sorted ensures CompareStrings(id, x) < 0 {
          if x != sorted[0] { StrictlyAfter(id, sorted[0], x); }
        }
        assert Insert(id, sorted)[1..] == sorted;
      } else {
        var rest := Insert(id, sorted[1..]);
        InsertKeepsIncreasing(id, sorted[1..]);
        CompareStringsFlips(id, sorted[0]);
        forall x | x in rest ensures CompareStrings(sorted[0], x) < 0 { InsertElements(id, sorted[1..], x); }
        assert Insert(id, sorted)[1..] == rest;
      }
    }
  }

  ghost predicate Distinct(ids: seq<string>) {
    forall i, j :: 0 <= i < j < |ids| ==> ids[i] != ids[j]
  }

  lemma {:induction false} SortedIsIncreasing(ids: seq<string>)
    requires Distinct(ids)
    ensures Increasing(Sorted(ids))
  {
    if ids != [] {
      var n := |ids| - 1;
      SortedIsIncreasing(ids[..n]);
      SortedElements(ids[..n], ids[n]);
      InsertKeepsIncreasing(ids[n], Sorted(ids[..n]));
    }
  }

  lemma HeadIsElement(ids: seq<string>)
    ensures ids != [] ==> ids[0] in ids
  {
  }

  lemma {:induction false} IncreasingUnique(a: seq<string>, b: seq<string>)
    requires Increasing(a) && Increasing(b) && forall x :: x in a <==> x in b
    ensures a == b
  {
    if a == [] {
      HeadIsElement(b);
    } else {
      assert a[0] in b;
      assert b[0] in a;
      if a[0] != b[0] {
        assert b[0] in a[1..] && a[0] in b[1..];
        CompareStringsFlips(a[0], b[0]);
      }
      forall x ensures x in a[1..] <==> x in b[1..] {
        assert x in a <==> x == a[0] || x in a[1..];
        assert x in b <==> x == b[0] || x in b[1..];
        assert CompareStrings(a[0], a[0]) == 0;
      }
      IncreasingUnique(a[1..], b[1..]);
    }
  }

  // ---------------------------------------------------------------------------
  // Joining

  function Join(ids: seq<string>): string {
    if ids == [] then "" else if |ids| == 1 then ids[0] else ids[0] + [NUL] + Join(ids[1..])
  }

  /** NUL-free text before the first NUL is recovered. */
  lemma NulEndsField(a: string, x: string, b: string, y: string)
    requires |a| < |b| && NUL !in b
    ensures a + [NUL] + x != b + y
  {
    assert (a + [NUL] + x)[|a|] == NUL && (b + y)[|a|] == b[|a|];
  }

  lemma JoinNonEmpty(ids: seq<string>)
    requires ids != [] && forall x :: x in ids ==> ValidID(x)
    ensures Join(ids) != ""
  {
    assert ValidID(ids[0]);
  }

  lemma {:induction false} JoinInjective(a: seq<string>, b: seq<string>)
    requires forall x :: x in a || x in b ==> ValidID(x)
    requires Join(a) == Join(b)
    ensures a == b
  {
    if a == [] {
      if b != [] { JoinNonEmpty(b); }
    } else if b == [] {
      JoinNonEmpty(a);
    } else {
      var x, y := if |a| == 1 then "" else [NUL] + Join(a[1..]), if |b| == 1 then "" else [NUL] + Join(b[1..]);
      assert Join(a) == a[0] + x && Join(b) == b[0] + y;
      assert ValidID(a[0]) && ValidID(b[0]);
      FirstFieldUnique(a[0], x, b[0], y);
      if |a| > 1 {
        assert Join(a[1..]) == x[1..] && Join(b[1..]) == y[1..];
        JoinInjective(a[1..], b[1..]);
      }
      assert a == [a[0]] + a[1..] && b == [b[0]] + b[1..];
    }
  }

  /** A remainder is empty or starts with NUL. */
  ghost predicate Remainder(x: string) { x == "" || x[0] == NUL }

  lemma FieldNotShorter(a: string, x: string, b: string, y: string)
    requires NUL !in b && Remainder(x) && |a| < |b|
    ensures a + x != b + y
  {
    if x == "" {
      assert |a + x| < |b + y|;
    } else {
      assert x == [NUL] + x[1..];
      assert a + x == a + [NUL] + x[1..];
      NulEndsField(a, x[1..], b, y);
    }
  }

  lemma FirstFieldUnique(a: string, x: string, b: string, y: string)
    requires NUL !in a && NUL !in b && Remainder(x) && Remainder(y) && a + x == b + y
    ensures a == b && x == y
  {
    if |a| < |b| { FieldNotShorter(a, x, b, y); }
    if |b| < |a| { FieldNotShorter(b, y, a, x); }
    assert a == (a + x)[..|a|] && b == (b + y)[..|b|];
    assert x == (a + x)[|a|..] && y == (b + y)[|b|..];
  }

  // ---------------------------------------------------------------------------
  // The key

  function WorkerSetKey(ids: seq<string>): string {
    Join(Sorted(ids))
  }

  lemma KeyEncodesSet(a: seq<string>, b: seq<string>)
    requires Distinct(a) && Distinct(b) && forall x :: x in a || x in b ==> ValidID(x)
    ensures WorkerSetKey(a) == WorkerSetKey(b) <==> forall x :: x in a <==> x in b
  {
    SortedIsIncreasing(a);
    SortedIsIncreasing(b);
    forall x ensures (x in Sorted(a) <==> x in a) && (x in Sorted(b) <==> x in b) {
      SortedElements(a, x);
      SortedElements(b, x);
    }
    if WorkerSetKey(a) == WorkerSetKey(b) {
      JoinInjective(Sorted(a), Sorted(b));
    }
    if forall x :: x in a <==> x in b {
      IncreasingUnique(Sorted(a), Sorted(b));
    }
  }
}
