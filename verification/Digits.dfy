/** Positional notation: numbers as digit strings, and numbers as fixed-width groups. */
module Digits {
  import opened Text

  const DIGITS := "0123456789abcdef"

  function DigitValue(c: char): (v: nat)
    ensures v <= 16
  {
    if '0' <= c <= '9' then c as int - '0' as int
    else if 'a' <= c <= 'f' then c as int - 'a' as int + 10
    else if 'A' <= c <= 'F' then c as int - 'A' as int + 10
    else 16
  }

  predicate IsNumeral(s: string, b: nat) {
    s != "" && forall i :: 0 <= i < |s| ==> DigitValue(s[i]) < b
  }

  function Parse(s: string, b: nat): nat {
    if s == "" then 0 else Parse(s[..|s| - 1], b) * b + DigitValue(s[|s| - 1])
  }

  function Print(n: nat, b: nat): (s: string)
    requires 2 <= b <= 16
    ensures s != ""
    decreases n
  {
    if n < b then [DIGITS[n]] else
      DivModStep(n, b);
      Print(n / b, b) + [DIGITS[n % b]]
  }

  predicate IsLowerDigit(c: char) {
    '0' <= c <= '9' || 'a' <= c <= 'f'
  }

  // ----- the non-linear steps, each on its own -----

  lemma DivModStep(n: nat, b: nat)
    requires b > 0
    ensures n / b * b + n % b == n
    ensures 0 <= n % b < b && 0 <= n / b
    ensures b >= 2 && n >= b ==> 0 < n / b < n
  {
    var q, r := n / b, n % b;
    assert n == b * q + r;
    if b >= 2 && n >= b {
      assert 2 * q <= b * q;
    }
  }

  lemma DivBound(n: nat, b: nat, p: nat)
    requires b > 0 && n < b * p
    ensures n / b < p
  {
    DivModStep(n, b);
    if n / b >= p {
      MulMono(p, n / b, b);
    }
  }

  lemma MulMono(x: nat, y: nat, b: nat)
    requires x <= y
    ensures x * b <= y * b && b * x <= b * y
  {
  }

  lemma MulStep(x: nat, y: nat, b: nat)
    requires x < y
    ensures x * b + b <= y * b
  {
    MulMono(x + 1, y, b);
  }

  lemma MulDouble(x: nat, y: nat)
    ensures x * (2 * y) == 2 * (x * y)
  {
  }

  lemma DivExact(q: nat, size: nat)
    requires size > 0
    ensures q * size / size == q
  {
    DivModStep(q * size, size);
    var r := q * size / size;
    if r < q { MulStep(r, q, size); }
    if q < r { MulStep(q, r, size); }
  }

  lemma DivDiv(x: nat, p: nat)
    requires p > 0
    ensures x / 2 / p == x / (2 * p)
  {
    var q, r := x / 2 / p, x / (2 * p);
    DivModStep(x / 2, p);
    DivModStep(x, 2 * p);
    MulDouble(q, p);
    if q < r { MulStep(q, r, 2 * p); }
    if r < q { MulStep(r, q, 2 * p); }
  }

  lemma DigitBound(x: nat, d: nat, b: nat, p: nat)
    requires x < p && d < b
    ensures x * b + d < b * p
  {
    MulMono(x + 1, p, b);
    assert (x + 1) * b == x * b + b;
  }

  lemma ParseSnoc(s: string, c: char, b: nat)
    ensures Parse(s + [c], b) == Parse(s, b) * b + DigitValue(c)
  {
    assert (s + [c])[..|s|] == s;
  }

  lemma DigitOf(d: nat)
    requires d < 16
    ensures DigitValue(DIGITS[d]) == d
    ensures IsLowerDigit(DIGITS[d]) && (d < 10 ==> IsDigit(DIGITS[d]))
    ensures DIGITS[d] == '0' <==> d == 0
  {
    assert DIGITS[0] == '0' && DIGITS[9] == '9' && DIGITS[10] == 'a' && DIGITS[15] == 'f';
  }

  lemma ParseOne(c: char, b: nat)
    ensures Parse([c], b) == DigitValue(c)
  {
    assert [c][..0] == "";
    assert Parse("", b) * b == 0;
  }

  lemma {:induction false} ParsePrint(n: nat, b: nat)
    requires 2 <= b <= 16
    ensures Parse(Print(n, b), b) == n
    decreases n
  {
    hide Parse, DigitValue;
    if n < b {
      ParseOne(DIGITS[n], b);
      DigitOf(n);
    } else {
      DivModStep(n, b);
      DigitOf(n % b);
      ParsePrint(n / b, b);
      ParseSnoc(Print(n / b, b), DIGITS[n % b], b);
    }
  }

  lemma {:induction false} PrintChars(n: nat, b: nat)
    requires 2 <= b <= 16
    ensures IsNumeral(Print(n, b), b)
    ensures Print(n, b)[0] == '0' <==> n == 0
    ensures forall c :: c in Print(n, b) ==> IsLowerDigit(c) && (b <= 10 ==> IsDigit(c))
    decreases n
  {
    if n < b {
      DigitOf(n);
    } else {
      DivModStep(n, b);
      DigitOf(n % b);
      PrintChars(n / b, b);
      assert Print(n, b)[0] == Print(n / b, b)[0];
    }
  }

  function Power(b: nat, k: nat): (p: nat)
    ensures b > 0 ==> p > 0
  {
    if k == 0 then 1
    else b * Power(b, k - 1)
  }

  lemma MulAssoc(x: nat, y: nat, z: nat)
    ensures x * (y * z) == (x * y) * z
  {
  }

  lemma {:induction false} PowerAdd(b: nat, j: nat, k: nat)
    ensures Power(b, j + k) == Power(b, j) * Power(b, k)
  {
    if j > 0 {
      PowerAdd(b, j - 1, k);
      MulAssoc(b, Power(b, j - 1), Power(b, k));
    }
  }

  lemma {:induction false} PrintLength(n: nat, b: nat, k: nat)
    requires 2 <= b <= 16 && 1 <= k && n < Power(b, k)
    ensures 1 <= |Print(n, b)| <= k
    decreases k
  {
    if n >= b {
      DivBound(n, b, Power(b, k - 1));
      PrintLength(n / b, b, k - 1);
    }
  }

  lemma {:induction false} PowerPower(b: nat, j: nat, k: nat)
    ensures Power(Power(b, j), k) == Power(b, k * j)
  {
    if k > 0 {
      PowerPower(b, j, k - 1);
      PowerAdd(b, j, (k - 1) * j);
      assert j + (k - 1) * j == k * j;
    }
  }

  lemma {:induction false} ParseBound(s: string, b: nat)
    requires 2 <= b <= 16 && (s == "" || IsNumeral(s, b))
    ensures Parse(s, b) < Power(b, |s|)
  {
    if s != "" {
      var t := s[..|s| - 1];
      ParseBound(t, b);
      DigitBound(Parse(t, b), DigitValue(s[|s| - 1]), b, Power(b, |t|));
    }
  }

  lemma {:induction false} PowerMono(b: nat, j: nat, k: nat)
    requires 1 <= b && j <= k
    ensures Power(b, j) <= Power(b, k)
  {
    if j < k {
      PowerMono(b, j, k - 1);
      MulMono(1, b, Power(b, k - 1));
    }
  }

  // ----- groups: the k base-b digits of a number, most significant first -----

  predicate AreGroups(g: seq<nat>, b: nat) {
    forall i :: 0 <= i < |g| ==> g[i] < b
  }

  function Compose(g: seq<nat>, b: nat): nat {
    if g == [] then 0 else Compose(g[..|g| - 1], b) * b + g[|g| - 1]
  }

  function Decompose(n: nat, b: nat, k: nat): (g: seq<nat>)
    requires b > 0
    ensures |g| == k
    ensures AreGroups(g, b)
    decreases k
  {
    if k == 0 then []
    else
      DivModStep(n, b);
      Decompose(n / b, b, k - 1) + [n % b]
  }

  lemma ComposeSnoc(g: seq<nat>, d: nat, b: nat)
    ensures Compose(g + [d], b) == Compose(g, b) * b + d
  {
    assert (g + [d])[..|g|] == g;
  }

  lemma {:induction false} ComposeDecompose(n: nat, b: nat, k: nat)
    requires b > 0 && n < Power(b, k)
    ensures Compose(Decompose(n, b, k), b) == n
    decreases k
  {
    if k > 0 {
      DivModStep(n, b);
      DivBound(n, b, Power(b, k - 1));
      ComposeDecompose(n / b, b, k - 1);
      ComposeSnoc(Decompose(n / b, b, k - 1), n % b, b);
    }
  }

  lemma {:induction false} ComposeBound(g: seq<nat>, b: nat)
    requires b > 0 && AreGroups(g, b)
    ensures Compose(g, b) < Power(b, |g|)
  {
    if g != [] {
      var h := g[..|g| - 1];
      ComposeBound(h, b);
      DigitBound(Compose(h, b), g[|g| - 1], b, Power(b, |h|));
    }
  }
}
