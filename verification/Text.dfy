/** Byte-wise string order and decimal rendering, with the facts the plan
    identities rely on: the order is total, and rendered numbers are injective. */
module Text {

  function CompareInts(left: int, right: int): (order: int)
    ensures order in {-1, 0, 1} && (order == 0 <==> left == right) && (order < 0 <==> left < right)
  {
    if left < right then -1 else if left > right then 1 else 0
  }

  function CompareBools(left: bool, right: bool): (order: int)
    ensures order in {-1, 0, 1} && (order == 0 <==> left == right)
  {
    if left == right then 0 else if !left then -1 else 1
  }

  /** Lexicographic comparison: -1, 0 or 1. */
  function CompareStrings(left: string, right: string): (order: int)
    ensures order in {-1, 0, 1} && (order == 0 <==> left == right)
  {
    if left == [] && right == [] then 0
    else if left == [] then -1
    else if right == [] then 1
    else if left[0] < right[0] then -1
    else if right[0] < left[0] then 1
    else
      assert left == [left[0]] + left[1..] && right == [right[0]] + right[1..];
      CompareStrings(left[1..], right[1..])
  }

  lemma {:induction false} CompareStringsFlips(left: string, right: string)
    ensures CompareStrings(left, right) == -CompareStrings(right, left)
  {
    if left != [] && right != [] && left[0] == right[0] {
      CompareStringsFlips(left[1..], right[1..]);
    }
  }

  lemma {:induction false} CompareStringsTransitive(a: string, b: string, c: string)
    requires CompareStrings(a, b) <= 0 && CompareStrings(b, c) <= 0
    ensures CompareStrings(a, c) <= 0
  {
    if a != [] && b != [] && c != [] && a[0] == b[0] && b[0] == c[0] {
      CompareStringsTransitive(a[1..], b[1..], c[1..]);
    }
  }

  /** The first comparison that is not a tie decides. */
  function Then(first: int, second: int): int {
    if first != 0 then first else second
  }

  function Digit(d: nat): (c: char)
    requires d < 10
    ensures c != '-' && '0' <= c <= '9' && c as int - '0' as int == d
  {
    ('0' as int + d) as char
  }

  function Decimal(n: nat): (text: string)
    ensures text != [] && '-' !in text
  {
    if n < 10 then [Digit(n)] else Decimal(n / 10) + [Digit(n % 10)]
  }

  function ParseDecimal(text: string): int
  {
    if text == [] then 0
    else ParseDecimal(text[..|text| - 1]) * 10 + (text[|text| - 1] as int - '0' as int)
  }

  lemma {:induction false} ParseInvertsDecimal(n: nat)
    ensures ParseDecimal(Decimal(n)) == n
  {
    if n < 10 {
      assert Decimal(n)[..0] == [];
    } else {
      var text := Decimal(n);
      assert text[..|text| - 1] == Decimal(n / 10);
      ParseInvertsDecimal(n / 10);
    }
  }

  lemma DecimalInjective(m: nat, n: nat)
    requires Decimal(m) == Decimal(n)
    ensures m == n
  {
    ParseInvertsDecimal(m);
    ParseInvertsDecimal(n);
  }

  /** Text up to the first dash cannot be a longer dash-free field. */
  lemma DashEndsField(a: string, x: string, b: string, y: string)
    requires |a| < |b| && '-' !in b
    ensures a + "-" + x != b + "-" + y
  {
    assert (a + "-" + x)[|a|] == '-' && (b + "-" + y)[|a|] == b[|a|];
  }

  /** A field that contains no dash is recovered from dash-separated text. */
  lemma DashSplitUnique(a: string, x: string, b: string, y: string)
    requires '-' !in a && '-' !in b
    requires a + "-" + x == b + "-" + y
    ensures a == b && x == y
  {
    var s, t := a + "-" + x, b + "-" + y;
    assert |a| == |b| by {
      if |a| < |b| { DashEndsField(a, x, b, y); }
      if |b| < |a| { DashEndsField(b, y, a, x); }
    }
    assert a == s[..|a|] && b == t[..|b|];
    assert x == s[|a| + 1..] && y == t[|b| + 1..];
  }
}
