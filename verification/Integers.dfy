/** `int(text)` and `str(number)` in decimal. `maxDigits` is the interpreter's limit on the number of
    digits a conversion accepts. */
module Integers {
  import opened Text
  import opened Digits

  function Concat(parts: seq<string>): string {
    if parts == [] then "" else parts[0] + Concat(parts[1..])
  }

  /** Digits, with single underscores between them. */
  function ParseNatural(body: string, maxDigits: nat): Option<nat> {
    var parts := Split(body, '_');
    var digits := Concat(parts);
    if (forall i :: 0 <= i < |parts| ==> IsNumeral(parts[i], 10)) && |digits| <= maxDigits
    then Some(Parse(digits, 10))
    else None
  }

  predicate IsSign(c: char) {
    c == '-' || c == '+'
  }

  function ParseInt(s: string, maxDigits: nat): Option<int> {
    var t := Trim(s);
    var signed := t != "" && IsSign(t[0]);
    match ParseNatural(if signed then t[1..] else t, maxDigits)
    case Some(n) => Some(if signed && t[0] == '-' then 0 - n else n)
    case None => None
  }

  function Magnitude(n: int): nat {
    if n < 0 then -n else n
  }

  function PrintInt(n: int): string {
    if n < 0 then "-" + Print(Magnitude(n), 10) else Print(n, 10)
  }

  lemma {:induction false} ConcatNumerals(parts: seq<string>)
    requires forall i :: 0 <= i < |parts| ==> IsNumeral(parts[i], 10)
    ensures parts == [] || IsNumeral(Concat(parts), 10)
  {
    if parts != [] {
      ConcatNumerals(parts[1..]);
    }
  }

  lemma ParsedLength(body: string, maxDigits: nat)
    requires ParseNatural(body, maxDigits).Some?
    ensures |Print(ParseNatural(body, maxDigits).value, 10)| <= maxDigits
  {
    var digits := Concat(Split(body, '_'));
    ConcatNumerals(Split(body, '_'));
    ParseBound(digits, 10);
    PrintLength(Parse(digits, 10), 10, |digits|);
  }

  lemma PrintedNatural(n: nat, maxDigits: nat)
    requires |Print(n, 10)| <= maxDigits
    ensures ParseNatural(Print(n, 10), maxDigits) == Some(n)
  {
    var s := Print(n, 10);
    PrintChars(n, 10);
    assert Free(s, '_');
    SplitParts(s, '_');
    assert Concat([s]) == s + Concat([]);
    assert s + "" == s;
    ParsePrint(n, 10);
  }

  lemma DigitsTrimmed(d: string)
    requires d != "" && forall c :: c in d ==> IsDigit(c)
    ensures Trimmed(d) && Trimmed("-" + d) && !IsSign(d[0])
  {
    assert IsDigit(d[0]) && IsDigit(d[|d| - 1]);
    assert ("-" + d)[|d|] == d[|d| - 1];
  }

  lemma PrintedTrimmed(n: int)
    ensures Trim(PrintInt(n)) == PrintInt(n) && PrintInt(n) != ""
    ensures IsSign(PrintInt(n)[0]) <==> n < 0
    ensures n < 0 ==> PrintInt(n)[0] == '-' && PrintInt(n)[1..] == Print(Magnitude(n), 10)
  {
    var d := Print(Magnitude(n), 10);
    PrintChars(Magnitude(n), 10);
    DigitsTrimmed(d);
    TrimFixes(PrintInt(n));
  }

  /** A printed number is read back, unless it has more digits than the limit. */
  lemma ParsePrintInt(n: int, maxDigits: nat)
    requires |Print(Magnitude(n), 10)| <= maxDigits
    ensures ParseInt(PrintInt(n), maxDigits) == Some(n)
  {
    PrintedTrimmed(n);
    PrintedNatural(Magnitude(n), maxDigits);
  }

  lemma ParsedMagnitude(s: string, maxDigits: nat)
    requires ParseInt(s, maxDigits).Some?
    ensures |Print(Magnitude(ParseInt(s, maxDigits).value), 10)| <= maxDigits
  {
    hide Trim, Print, ParseNatural;
    var t := Trim(s);
    ParsedLength(if t != "" && IsSign(t[0]) then t[1..] else t, maxDigits);
  }

  /** What was once read prints to text that reads as the same number. */
  lemma ReadPrintRead(s: string, maxDigits: nat)
    requires ParseInt(s, maxDigits).Some?
    ensures ParseInt(PrintInt(ParseInt(s, maxDigits).value), maxDigits) == ParseInt(s, maxDigits)
    ensures Trim(PrintInt(ParseInt(s, maxDigits).value)) == PrintInt(ParseInt(s, maxDigits).value)
  {
    ParsedMagnitude(s, maxDigits);
    ParsePrintInt(ParseInt(s, maxDigits).value, maxDigits);
    PrintedTrimmed(ParseInt(s, maxDigits).value);
  }

  lemma TrimIgnored(s: string, maxDigits: nat)
    ensures ParseInt(Trim(s), maxDigits) == ParseInt(s, maxDigits)
  {
    hide ParseNatural, Trim;
    TrimFixes(s);
    TrimFixes(Trim(s));
  }

  // ----- which texts are integers -----

  /** An optional sign, then decimal digits with single underscores between them, in all no more digits
      than the limit. */
  predicate WritesInt(t: string, maxDigits: nat, n: int, sign: string, parts: seq<string>) {
    && sign in {"", "+", "-"} && parts != [] && t == sign + Join(parts, '_')
    && (forall i :: 0 <= i < |parts| ==> IsNumeral(parts[i], 10)) && |Concat(parts)| <= maxDigits
    && n == if sign == "-" then 0 - Parse(Concat(parts), 10) else Parse(Concat(parts), 10)
  }

  lemma NumeralChars(s: string)
    requires IsNumeral(s, 10)
    ensures '_' !in s && !IsSign(s[0])
  {
    forall c | c in s ensures c != '_' {
      var i :| 0 <= i < |s| && s[i] == c;
      assert DigitValue(s[i]) < 10;
    }
    assert DigitValue(s[0]) < 10;
  }

  lemma JoinedNumerals(parts: seq<string>)
    requires parts != [] && forall i :: 0 <= i < |parts| ==> IsNumeral(parts[i], 10)
    ensures Split(Join(parts, '_'), '_') == parts
    ensures Join(parts, '_') != "" && !IsSign(Join(parts, '_')[0])
  {
    forall p | p in parts ensures Free(p, '_') {
      var i :| 0 <= i < |parts| && parts[i] == p;
      NumeralChars(parts[i]);
    }
    SplitJoin(parts, '_');
    NumeralChars(parts[0]);
  }

  lemma WrittenIntParses(s: string, maxDigits: nat, n: int, sign: string, parts: seq<string>)
    requires WritesInt(Trim(s), maxDigits, n, sign, parts)
    ensures ParseInt(s, maxDigits) == Some(n)
  {
    hide Trim, IsNumeral, Join, Split, Concat, Parse;
    JoinedNumerals(parts);
    var body := Join(parts, '_');
    assert sign != "" ==> (sign + body)[1..] == body;
    assert sign == "" ==> sign + body == body;
  }

  /** Text is read as a number exactly when it is written so, white space around it aside. */
  lemma ParseIntIff(s: string, maxDigits: nat, n: int)
    ensures ParseInt(s, maxDigits) == Some(n)
       <==> exists sign, parts :: WritesInt(Trim(s), maxDigits, n, sign, parts)
  {
    hide Trim, IsNumeral, Join, Split, Concat, Parse;
    if ParseInt(s, maxDigits) == Some(n) {
      var t := Trim(s);
      var signed := t != "" && IsSign(t[0]);
      var sign, body := if signed then [t[0]] else "", if signed then t[1..] else t;
      SplitParts(body, '_');
      assert t == sign + body;
      assert WritesInt(t, maxDigits, n, sign, Split(body, '_'));
    }
    if sign, parts :| WritesInt(Trim(s), maxDigits, n, sign, parts) {
      WrittenIntParses(s, maxDigits, n, sign, parts);
    }
  }
}
