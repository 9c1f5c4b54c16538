/** Exactly which texts are addresses: a partner for the readers of `IpNetworks`, beyond the canonical
    form (sections 2.2 of RFC 4291 and 3.2.2 of RFC 3986 for the dotted part). */
module AddressTexts {
  import opened Text
  import opened Digits
  import opened IpNetworks

  // ----- dotted decimal -----

  lemma ParsePositive(s: string)
    requires IsNumeral(s, 10) && s[0] != '0'
    ensures Parse(s, 10) > 0
  {
    if |s| == 1 {
      ParseOne(s[0], 10);
      assert s == [s[0]];
      assert DigitValue(s[0]) > 0;
    } else {
      var init := s[..|s| - 1];
      ParsePositive(init);
      MulMono(1, Parse(init, 10), 10);
    }
  }

  lemma DecimalDigit(c: char)
    requires DigitValue(c) < 10
    ensures DIGITS[DigitValue(c)] == c
  {
  }

  lemma DivStep(q: nat, d: nat)
    requires d < 10
    ensures (q * 10 + d) / 10 == q && (q * 10 + d) % 10 == d
  {
  }

  lemma PrintDigit(d: nat)
    requires d < 10
    ensures Print(d, 10) == [DIGITS[d]]
  {
  }

  lemma PrintStep(q: nat, d: nat)
    requires q > 0 && d < 10
    ensures Print(q * 10 + d, 10) == Print(q, 10) + [DIGITS[d]]
  {
    DivStep(q, d);
  }

  /** A decimal numeral without a leading zero is what its value prints to. */
  lemma {:induction false} NumeralIsPrinted(s: string)
    requires IsNumeral(s, 10) && (s == "0" || s[0] != '0')
    ensures Print(Parse(s, 10), 10) == s
  {
    hide Print, DigitValue;
    var last := s[|s| - 1];
    DecimalDigit(last);
    if |s| == 1 {
      ParseOne(s[0], 10);
      PrintDigit(DigitValue(last));
      assert s == [s[0]];
    } else {
      var init := s[..|s| - 1];
      NumeralIsPrinted(init);
      ParsePositive(init);
      PrintStep(Parse(init, 10), DigitValue(last));
      assert s == init + [last];
    }
  }

  lemma OctetIff(s: string, n: nat)
    ensures ParseOctet(s) == Some(n) <==> n < 256 && s == Print(n, 10)
  {
    if ParseOctet(s) == Some(n) {
      NumeralIsPrinted(s);
    }
    if n < 256 && s == Print(n, 10) {
      ParsePrint(n, 10);
      PrintChars(n, 10);
      assert Power(10, 3) == 1000;
      PrintLength(n, 10, 3);
      if n == 0 {
        assert Print(0, 10) == "0";
      }
    }
  }

  lemma {:induction false} OctetsIff(parts: seq<string>, g: seq<nat>)
    ensures ParseGroups(parts, ParseOctet) == Some(g) <==> AreGroups(g, 256) && parts == PrintGroups(g, 10)
  {
    hide ParseOctet, Print;
    if parts == [] {
    } else if g != [] {
      OctetIff(parts[0], g[0]);
      OctetsIff(parts[1..], g[1..]);
      assert PrintGroups(g, 10)[1..] == PrintGroups(g[1..], 10);
      assert parts == [parts[0]] + parts[1..] && g == [g[0]] + g[1..];
    }
  }

  /** IPv4 text is exactly four decimal numbers below 256, without leading zeros, with dots between. */
  lemma V4Iff(text: string, g: seq<nat>)
    ensures ParseV4(text) == Some(g) <==> |g| == 4 && AreGroups(g, 256) && text == Join(PrintGroups(g, 10), '.')
  {
    hide ParseOctet, Print;
    if ParseV4(text) == Some(g) {
      OctetsIff(Split(text, '.'), g);
      SplitParts(text, '.');
    }
    if |g| == 4 && AreGroups(g, 256) && text == Join(PrintGroups(g, 10), '.') {
      PrintedV4(g);
    }
  }

  // ----- hextets -----

  /** The parts are the groups, each one to four hexadecimal digits of either case. */
  predicate Hextets(parts: seq<string>, g: seq<nat>) {
    && |parts| == |g|
    && forall i :: 0 <= i < |parts| ==>
         IsNumeral(parts[i], 16) && |parts[i]| <= 4 && Parse(parts[i], 16) == g[i]
  }

  lemma {:induction false} HextetsIff(parts: seq<string>, g: seq<nat>)
    ensures ParseGroups(parts, ParseHextet) == Some(g) <==> Hextets(parts, g)
  {
    hide Parse, IsNumeral;
    if parts != [] && g != [] {
      HextetsIff(parts[1..], g[1..]);
      assert g == [g[0]] + g[1..];
    }
  }

  /** With all eight groups, or with "::" for at least one group of zeros. */
  ghost predicate WritesGroups(parts: seq<string>, g: seq<nat>) {
    || (|parts| == 8 && Hextets(parts, g))
    || exists l, r, gl, gr :: WritesGap(parts, g, l, r, gl, gr)
  }

  predicate WritesGap(parts: seq<string>, g: seq<nat>, l: seq<string>, r: seq<string>, gl: seq<nat>, gr: seq<nat>) {
    && |l| + |r| <= 7 && parts == Compressed(l, r) && Hextets(l, gl) && Hextets(r, gr)
    && g == gl + Zeros(8 - |l| - |r|) + gr
  }

  lemma HextetsNotEmpty(parts: seq<string>, g: seq<nat>)
    requires Hextets(parts, g)
    ensures NoEmpty(parts)
  {
  }

  lemma GapParses(parts: seq<string>, g: seq<nat>, l: seq<string>, r: seq<string>, gl: seq<nat>, gr: seq<nat>)
    requires WritesGap(parts, g, l, r, gl, gr)
    ensures |parts| >= 3 && ParseV6Parts(parts) == Some(g)
  {
    hide Hextets, SkipIndex, ParseGroups, Zeros, Compressed;
    HextetsNotEmpty(l, gl);
    HextetsNotEmpty(r, gr);
    ParseCompressed(l, r);
    HextetsIff(l, gl);
    HextetsIff(r, gr);
    HextetsSame(l, gl);
    HextetsSame(r, gr);
  }

  lemma HextetsSame(parts: seq<string>, g: seq<nat>)
    requires Hextets(parts, g)
    ensures |parts| == |g|
  {
  }

  lemma AroundWrites(parts: seq<string>, skip: nat, g: seq<nat>)
    requires 1 <= skip < |parts| - 1 && parts[skip] == "" && ParseAround(parts, skip) == Some(g)
    ensures WritesGroups(parts, g)
  {
    hide SkipIndex, ParseGroups, ParseHextet, Hextets;
    var last := |parts| - 1;
    var hi := if parts[0] == "" then skip - 1 else skip;
    var lo := if parts[last] == "" then last - skip - 1 else last - skip;
    var l, r := parts[..hi], parts[|parts| - lo..];
    var gl, gr := ParseGroups(l, ParseHextet).value, ParseGroups(r, ParseHextet).value;
    HextetsIff(l, gl);
    HextetsIff(r, gr);
    AroundIsCompressed(parts, skip, hi, lo);
    assert WritesGap(parts, g, l, r, gl, gr);
  }

  lemma AroundIsCompressed(parts: seq<string>, skip: nat, hi: nat, lo: nat)
    requires 1 <= skip < |parts| - 1 && parts[skip] == ""
    requires hi == (if parts[0] == "" then 0 else skip) && (parts[0] == "" ==> skip == 1)
    requires var last := |parts| - 1;
      lo == (if parts[last] == "" then 0 else last - skip) && (parts[last] == "" ==> last - skip == 1)
    ensures parts == Compressed(parts[..hi], parts[|parts| - lo..])
  {
    var c := Compressed(parts[..hi], parts[|parts| - lo..]);
    assert |c| == |parts|;
    forall k | 0 <= k < |parts| ensures c[k] == parts[k] { }
  }

  lemma WritesParse(parts: seq<string>, g: seq<nat>)
    requires |parts| >= 3 && WritesGroups(parts, g)
    ensures ParseV6Parts(parts) == Some(g)
  {
    hide ParseGroups, ParseHextet;
    if l, r, gl, gr :| WritesGap(parts, g, l, r, gl, gr) {
      GapParses(parts, g, l, r, gl, gr);
    } else {
      HextetsNotEmpty(parts, g);
      SkipFound(parts, 1, 7);
      HextetsIff(parts, g);
    }
  }

  /** The colon-separated parts of an IPv6 address are exactly eight hextets, or at most seven of them
      around one "::". */
  lemma V6PartsIff(parts: seq<string>, g: seq<nat>)
    requires |parts| >= 3
    ensures ParseV6Parts(parts) == Some(g) <==> WritesGroups(parts, g)
  {
    hide WritesGap, Hextets, ParseGroups, ParseHextet, ParseAround;
    if ParseV6Parts(parts) == Some(g) {
      var skip := SkipIndex(parts, 1);
      if skip == |parts| - 1 {
        HextetsIff(parts, g);
      } else {
        AroundWrites(parts, skip, g);
      }
    }
    if WritesGroups(parts, g) {
      WritesParse(parts, g);
    }
  }

  /** The same for text without a dotted part. */
  lemma V6Iff(text: string, g: seq<nat>)
    requires '.' !in text
    ensures ParseV6(text) == Some(g)
       <==> exists parts :: |parts| >= 3 && NoneHas(parts, ':') && text == Join(parts, ':') && WritesGroups(parts, g)
  {
    hide WritesGroups, ParseV6Parts;
    var parts := Split(text, ':');
    SplitParts(text, ':');
    assert '.' !in parts[|parts| - 1] by {
      assert parts[|parts| - 1] in parts;
    }
    if |parts| >= 3 {
      V6PartsIff(parts, g);
      assert NoneHas(parts, ':');
    }
    forall other | |other| >= 3 && NoneHas(other, ':') && text == Join(other, ':') ensures other == parts {
      SplitJoin(other, ':');
    }
  }

  predicate NoneHas(parts: seq<string>, c: char) {
    forall p :: p in parts ==> c !in p
  }

  /** A dotted part at the end means the two hextets with its four bytes. */
  lemma DottedTail(init: seq<string>, q: seq<nat>)
    requires |init| >= 2 && NoneHas(init, ':') && |q| == 4 && AreGroups(q, 256)
    ensures var hex := [Print(q[0] * 256 + q[1], 16), Print(q[2] * 256 + q[3], 16)];
      ParseV6(Join(init + [Join(PrintGroups(q, 10), '.')], ':')) == ParseV6Parts(init + hex)
  {
    hide ParseV6Parts, Print, PrintGroups, Join, Split, ParseV4, AreGroups;
    var dotted := Join(PrintGroups(q, 10), '.');
    var parts := init + [dotted];
    PrintedV4(q);
    DottedChars(q);
    assert NoneHas(parts, ':') && parts[..|parts| - 1] == init;
    SplitJoin(parts, ':');
  }

  lemma DottedChars(q: seq<nat>)
    requires |q| == 4 && AreGroups(q, 256)
    ensures var dotted := Join(PrintGroups(q, 10), '.');
      ':' !in dotted && '.' in dotted
  {
    var parts := PrintGroups(q, 10);
    PrintedGroupChars(q, 10);
    JoinChars(parts, '.');
    forall i | 0 <= i < |parts| ensures ':' !in parts[i] {
      assert parts[i] in parts;
    }
    JoinCons(parts, '.');
    assert Join(parts, '.')[|parts[0]|] == '.';
  }
}
