/**
 The ISIN check digit (ISO 6166, computed with the modulus-10 double-add-double
 formula of Annex B of ISO/IEC 7812-1).
 */
module Isin {

  predicate IsUpper(c: char) { 'A' <= c <= 'Z' }

  predicate IsDigit(c: char) { '0' <= c <= '9' }

  function Value(c: char): (v: int)
    requires IsDigit(c)
  {
    c as int - '0' as int
  }

  /** Two capital letters, nine capitals or digits. */
  predicate PrefixShape(s: string) {
    && |s| == 11
    && IsUpper(s[0]) && IsUpper(s[1])
    && forall i :: 2 <= i < 11 ==> IsUpper(s[i]) || IsDigit(s[i])
  }

  /** A prefix and a final decimal digit. */
  predicate Shape(s: string) {
    |s| == 12 && PrefixShape(s[..11]) && IsDigit(s[11])
  }

  predicate Alphanumeric(s: string) {
    forall i :: 0 <= i < |s| ==> IsUpper(s[i]) || IsDigit(s[i])
  }

  predicate Decimal(ds: seq<int>) {
    forall i :: 0 <= i < |ds| ==> 0 <= ds[i] <= 9
  }

  /** A letter stands for the two digits of its code, `A` being 10. */
  function CharDigits(c: char): (ds: seq<int>)
    requires IsUpper(c) || IsDigit(c)
    ensures Decimal(ds)
    ensures |ds| == if IsDigit(c) then 1 else 2
  {
    if IsDigit(c) then [Value(c)]
    else
      var code := c as int - 55;
      [code / 10, code % 10]
  }

  function Digits(s: string): (ds: seq<int>)
    requires Alphanumeric(s)
    ensures Decimal(ds)
  {
    if s == "" then [] else CharDigits(s[0]) + Digits(s[1..])
  }

  /** What digit `d` adds at distance `i` from the right: doubled, then digit-summed, when `i` is odd. */
  function Weight(d: int, i: nat): int {
    var x := if i % 2 == 1 then 2 * d else d;
    x / 10 + x % 10
  }

  /** The weighted sum over the reversed digits, the last one standing at distance `i`. */
  function Total(ds: seq<int>, i: nat): int {
    if ds == [] then 0
    else Weight(ds[|ds| - 1], i) + Total(ds[..|ds| - 1], i + 1)
  }

  predicate Valid(s: string) {
    Shape(s) && (ShapeIsAlphanumeric(s); Total(Digits(s), 0) % 10 == 0)
  }

  lemma {:induction false} ShapeIsAlphanumeric(s: string)
    requires Shape(s)
    ensures Alphanumeric(s)
  {
    assert s == s[..11] + [s[11]];
    forall i | 0 <= i < |s| ensures IsUpper(s[i]) || IsDigit(s[i]) {
      if i < 11 { assert s[i] == s[..11][i]; }
    }
  }

  // ---- splitting the sum ----

  lemma {:induction false} DigitsConcat(a: string, b: string)
    requires Alphanumeric(a) && Alphanumeric(b)
    ensures Alphanumeric(a + b)
    ensures Digits(a + b) == Digits(a) + Digits(b)
  {
    if a == "" {
      assert a + b == b;
    } else {
      DigitsConcat(a[1..], b);
      assert (a + b)[1..] == a[1..] + b;
    }
  }

  lemma {:induction false} TotalConcat(a: seq<int>, b: seq<int>, i: nat)
    ensures Total(a + b, i) == Total(a, i + |b|) + Total(b, i)
  {
    if b == [] {
      assert a + b == a;
    } else {
      var c := b[..|b| - 1];
      assert (a + b)[..|a + b| - 1] == a + c;
      TotalConcat(a, c, i + 1);
    }
  }

  // ---- the check digit is determined ----

  function CheckDigit(p: string): (c: char)
    requires PrefixShape(p)
    ensures IsDigit(c)
  {
    ('0' as int + (10 - Total(Digits(p), 1) % 10) % 10) as char
  }

  /** Every well-shaped prefix has exactly one accepted check digit. */
  lemma {:induction false} ExactlyOneCheckDigit(p: string, c: char)
    requires PrefixShape(p)
    ensures Valid(p + [c]) <==> c == CheckDigit(p)
  {
    var s := p + [c];
    assert s[..11] == p;
    if IsDigit(c) {
      assert Alphanumeric(s) && Digits(s) == Digits(p) + Digits([c]) by { DigitsConcat(p, [c]); }
      OneDigit(c);
      AppendDigit(Digits(p), Value(c));
      CompletesTen(Total(Digits(p), 1), Value(c));
    }
  }

  lemma {:induction false} AppendDigit(ds: seq<int>, d: int)
    requires 0 <= d <= 9
    ensures Total(ds + [d], 0) == Total(ds, 1) + d
  {
    assert (ds + [d])[..|ds|] == ds;
  }

  lemma CompletesTen(t: int, d: int)
    requires 0 <= d <= 9
    ensures (t + d) % 10 == 0 <==> d == (10 - t % 10) % 10
  {
  }

  // ---- single substitutions and adjacent swaps of digits ----

  lemma {:induction false} OneDigit(c: char)
    requires IsDigit(c)
    ensures Digits([c]) == [Value(c)]
  {
    assert [c][1..] == "";
  }

  lemma {:induction false} DigitsAround(a: string, mid: string, b: string)
    requires Alphanumeric(a) && Alphanumeric(mid) && Alphanumeric(b)
    ensures Alphanumeric(a + mid + b)
    ensures Digits(a + mid + b) == Digits(a) + Digits(mid) + Digits(b)
  {
    DigitsConcat(a, mid);
    DigitsConcat(a + mid, b);
  }

  /** Rewriting digit characters from `i` on leaves the expansion of the rest alone. */
  lemma {:induction false} Rewrite(s: string, i: nat, mid: string)
    requires Shape(s) && 2 <= i && i + |mid| <= 12
    requires forall k :: 0 <= k < |mid| ==> IsDigit(mid[k])
    requires Alphanumeric(s[..i]) && Alphanumeric(s[i + |mid|..]) && Alphanumeric(mid)
    ensures Shape(s[..i] + mid + s[i + |mid|..])
    ensures Alphanumeric(s[..i] + mid + s[i + |mid|..])
    ensures Digits(s[..i] + mid + s[i + |mid|..]) == Digits(s[..i]) + Digits(mid) + Digits(s[i + |mid|..])
  {
    DigitsAround(s[..i], mid, s[i + |mid|..]);
    var t := s[..i] + mid + s[i + |mid|..];
    assert t[11] == if i + |mid| == 12 && |mid| > 0 then mid[|mid| - 1] else s[11];
    assert t[0] == s[0] && t[1] == s[1];
    assert s[0] == s[..11][0] && s[1] == s[..11][1];
  }

  lemma {:induction false} Pieces(s: string, i: nat, n: nat)
    requires Shape(s) && i + n <= 12
    ensures Alphanumeric(s[..i]) && Alphanumeric(s[i..i + n]) && Alphanumeric(s[i + n..])
    ensures s == s[..i] + s[i..i + n] + s[i + n..]
    ensures i < 12 && IsDigit(s[i]) ==> 2 <= i
  {
    ShapeIsAlphanumeric(s);
    assert s[0] == s[..11][0] && s[1] == s[..11][1];
  }

  lemma {:induction false} TotalWithOne(x: seq<int>, d: int, z: seq<int>)
    ensures Total(x + [d] + z, 0) == Total(x, |z| + 1) + Total(z, 0) + Weight(d, |z|)
  {
    TotalConcat(x + [d], z, 0);
    assert (x + [d])[..|x|] == x;
  }

  lemma {:induction false} TotalWithTwo(x: seq<int>, d: int, e: int, z: seq<int>)
    ensures Total(x + [d, e] + z, 0) == Total(x, |z| + 2) + Total(z, 0) + Weight(e, |z|) + Weight(d, |z| + 1)
  {
    assert x + [d, e] + z == (x + [d]) + [e] + z;
    TotalWithOne(x + [d], e, z);
    assert (x + [d])[..|x|] == x;
  }

  /** A table of the two weights: identity at even distances, doubled and digit-summed at odd ones. */
  lemma Weights(d: int, i: nat)
    requires 0 <= d <= 9
    ensures Weight(d, i) == if i % 2 == 0 then d else if d <= 4 then 2 * d else 2 * d - 9
  {
  }

  /** Within ten of a multiple of ten there is no other one. */
  lemma NearbyMultiple(x: int, y: int)
    requires x % 10 == 0 && -10 < y - x < 10
    ensures y % 10 == 0 <==> x == y
  {
  }

  lemma DifferentWeights(k: int, d: int, e: int, i: nat)
    requires 0 <= d <= 9 && 0 <= e <= 9 && d != e
    requires (k + Weight(d, i)) % 10 == 0
    ensures (k + Weight(e, i)) % 10 != 0
  {
    Weights(d, i);
    Weights(e, i);
    NearbyMultiple(k + Weight(d, i), k + Weight(e, i));
  }

  lemma SwappedWeights(k: int, d: int, e: int, i: nat)
    requires 0 <= d <= 9 && 0 <= e <= 9 && d != e
    requires (k + Weight(e, i) + Weight(d, i + 1)) % 10 == 0
    ensures (k + Weight(d, i) + Weight(e, i + 1)) % 10 == 0 <==> (d == 0 && e == 9) || (d == 9 && e == 0)
  {
    Weights(d, i);
    Weights(e, i);
    Weights(d, i + 1);
    Weights(e, i + 1);
    NearbyMultiple(k + Weight(e, i) + Weight(d, i + 1), k + Weight(d, i) + Weight(e, i + 1));
  }

  /** Replacing one digit by a different digit is always detected, whatever letters stand around it. */
  lemma {:induction false} SubstitutionRejected(s: string, i: nat, c: char)
    requires Valid(s) && i < 12 && IsDigit(s[i]) && IsDigit(c) && c != s[i]
    ensures Shape(s[i := c]) && !Valid(s[i := c])
  {
    Pieces(s, i, 1);
    var x, z := Digits(s[..i]), Digits(s[i + 1..]);
    assert Digits(s) == x + [Value(s[i])] + z by {
      assert s[i..i + 1] == [s[i]];
      Rewrite(s, i, [s[i]]);
      OneDigit(s[i]);
    }
    assert Shape(s[i := c]) && Alphanumeric(s[i := c]) && Digits(s[i := c]) == x + [Value(c)] + z by {
      assert s[i := c] == s[..i] + [c] + s[i + 1..];
      Rewrite(s, i, [c]);
      OneDigit(c);
    }
    Detected(x, Value(s[i]), Value(c), z);
  }

  lemma {:induction false} Detected(x: seq<int>, d: int, e: int, z: seq<int>)
    requires 0 <= d <= 9 && 0 <= e <= 9 && d != e
    requires Total(x + [d] + z, 0) % 10 == 0
    ensures Total(x + [e] + z, 0) % 10 != 0
  {
    TotalWithOne(x, d, z);
    TotalWithOne(x, e, z);
    DifferentWeights(Total(x, |z| + 1) + Total(z, 0), d, e, |z|);
  }

  lemma {:induction false} SwapDetected(x: seq<int>, d: int, e: int, z: seq<int>)
    requires 0 <= d <= 9 && 0 <= e <= 9 && d != e
    requires Total(x + [d, e] + z, 0) % 10 == 0
    ensures Total(x + [e, d] + z, 0) % 10 == 0 <==> (d == 0 && e == 9) || (d == 9 && e == 0)
  {
    TotalWithTwo(x, d, e, z);
    TotalWithTwo(x, e, d, z);
    SwappedWeights(Total(x, |z| + 2) + Total(z, 0), d, e, |z|);
  }

  lemma {:induction false} TwoDigits(c: char, d: char)
    requires IsDigit(c) && IsDigit(d)
    ensures Digits([c, d]) == [Value(c), Value(d)]
  {
    assert [c, d][1..] == [d];
    OneDigit(d);
  }

  /** Swapping two different adjacent digits is detected exactly unless they are 0 and 9. */
  lemma {:induction false} SwapRejectedUnlessZeroNine(s: string, i: nat)
    requires Valid(s) && i + 1 < 12 && IsDigit(s[i]) && IsDigit(s[i + 1]) && s[i] != s[i + 1]
    ensures Valid(s[i := s[i + 1]][i + 1 := s[i]])
       <==> (s[i] == '0' && s[i + 1] == '9') || (s[i] == '9' && s[i + 1] == '0')
  {
    var c, d := s[i], s[i + 1];
    var t := s[i := d][i + 1 := c];
    Pieces(s, i, 2);
    var x, z := Digits(s[..i]), Digits(s[i + 2..]);
    assert Digits(s) == x + [Value(c), Value(d)] + z by {
      assert s[i..i + 2] == [c, d];
      Rewrite(s, i, [c, d]);
      TwoDigits(c, d);
    }
    assert Shape(t) && Alphanumeric(t) && Digits(t) == x + [Value(d), Value(c)] + z by {
      assert t == s[..i] + [d, c] + s[i + 2..];
      Rewrite(s, i, [d, c]);
      TwoDigits(d, c);
    }
    SwapDetected(x, Value(c), Value(d), z);
  }

  /** An identifier whose adjacent 0 and 9 can be swapped unnoticed. */
  lemma SwapCanGoUnnoticed() returns (s: string, i: nat)
    ensures Valid(s) && i + 1 < |s| && s[i] == '0' && s[i + 1] == '9' && Valid(s[i := '9'][i + 1 := '0'])
  {
    var p := "US090000000";
    assert PrefixShape(p);
    s, i := p + [CheckDigit(p)], 2;
    ExactlyOneCheckDigit(p, CheckDigit(p));
    SwapRejectedUnlessZeroNine(s, i);
  }
}
