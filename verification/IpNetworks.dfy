/** Addresses and networks as the standard library's `ipaddress` module reads and writes them:
    dotted decimal and CIDR notation (section 3.1 of RFC 4632), IPv6 text (sections 2.2 and 2.3
    of RFC 4291) and its canonical form (section 4 of RFC 5952). */
module IpNetworks {
  import opened Text
  import opened Digits

  datatype Version = V4 | V6

  function Width(v: Version): nat {
    if v.V4? then 32 else 128
  }

  function Groups(v: Version): nat {
    if v.V4? then 4 else 8
  }

  function GroupBase(v: Version): nat {
    if v.V4? then 256 else 65536
  }

  datatype Address = Address(version: Version, value: nat)

  predicate ValidAddress(a: Address) {
    a.value < Power(2, Width(a.version))
  }

  /** A network as stored: `base` has its host bits cleared. */
  datatype Network = Network(version: Version, base: nat, prefix: nat)

  predicate ValidNetwork(n: Network) {
    && n.prefix <= Width(n.version)
    && n.base < Power(2, Width(n.version))
    && Mask(n.version, n.base, n.prefix) == n.base
  }

  // ----- bit masks -----

  function BitAnd(x: nat, y: nat): nat
    decreases x
  {
    if x == 0 || y == 0 then 0
    else 2 * BitAnd(x / 2, y / 2) + (if x % 2 == 1 && y % 2 == 1 then 1 else 0)
  }

  /** `prefix` ones followed by zeros, `width` bits in all. */
  function Netmask(width: nat, prefix: nat): nat
    requires prefix <= width
  {
    ShiftLeft(Power(2, prefix) - 1, width - prefix)
  }

  function ShiftLeft(x: nat, k: nat): nat {
    if k == 0 then x else 2 * ShiftLeft(x, k - 1)
  }

  function Mask(v: Version, value: nat, prefix: nat): nat
    requires prefix <= Width(v)
  {
    BitAnd(value, Netmask(Width(v), prefix))
  }

  function Masked(a: Address, prefix: nat): Network
    requires prefix <= Width(a.version)
  {
    Network(a.version, Mask(a.version, a.value, prefix), prefix)
  }

  /** `address in network`: same version, and equal after masking. */
  predicate Contains(n: Network, a: Address)
    requires n.prefix <= Width(n.version)
  {
    n.version == a.version && Mask(n.version, a.value, n.prefix) == n.base
  }

  /** The block of addresses an entry `address/prefix` names: the aligned interval of
      2^(width - prefix) addresses around `address`. */
  predicate InBlock(a: Address, prefix: nat, c: Address)
    requires prefix <= Width(a.version)
  {
    var size := Power(2, Width(a.version) - prefix);
    a.version == c.version && a.value / size * size <= c.value < a.value / size * size + size
  }

  lemma {:induction false} AndAllOnes(x: nat, k: nat)
    requires x < Power(2, k)
    ensures BitAnd(x, Power(2, k) - 1) == x
    decreases k
  {
    if k > 0 && x > 0 {
      var m := Power(2, k - 1);
      assert Power(2, k) - 1 == 2 * (m - 1) + 1;
      AndAllOnes(x / 2, k - 1);
    }
  }

  lemma AndEven(x: nat, m: nat)
    ensures BitAnd(x, 2 * m) == 2 * BitAnd(x / 2, m)
  {
    if x != 0 && m != 0 {
      AndUnfold(x, 2 * m);
    }
  }

  lemma AndUnfold(x: nat, y: nat)
    requires x != 0 && y != 0 && y % 2 == 0
    ensures BitAnd(x, y) == 2 * BitAnd(x / 2, y / 2)
  {
  }

  /** `x` with its low `k` bits cleared. */
  function ClearLow(x: nat, k: nat): nat
    decreases k
  {
    if k == 0 then x else 2 * ClearLow(x / 2, k - 1)
  }

  lemma {:induction false} AndNetmask(x: nat, ones: nat, k: nat)
    requires x < Power(2, ones + k)
    ensures BitAnd(x, ShiftLeft(Power(2, ones) - 1, k)) == ClearLow(x, k)
    decreases k
  {
    if k == 0 {
      AndAllOnes(x, ones);
    } else {
      assert Power(2, ones + k) == 2 * Power(2, ones + k - 1);
      AndNetmask(x / 2, ones, k - 1);
      AndEven(x, ShiftLeft(Power(2, ones) - 1, k - 1));
    }
  }

  lemma {:induction false} ClearLowRounds(x: nat, k: nat)
    ensures ClearLow(x, k) == x / Power(2, k) * Power(2, k)
    decreases k
  {
    if k == 0 {
      assert x / 1 * 1 == x;
    } else {
      ClearLowRounds(x / 2, k - 1);
      Halved(x, Power(2, k - 1));
    }
  }

  lemma Halved(x: nat, p: nat)
    requires p > 0
    ensures x / (2 * p) * (2 * p) == 2 * (x / 2 / p * p)
  {
    DivDiv(x, p);
    MulDouble(x / 2 / p, p);
  }

  /** Masking keeps the top `prefix` bits: it rounds down to the start of the block. */
  lemma MaskRounds(v: Version, value: nat, prefix: nat)
    requires prefix <= Width(v) && value < Power(2, Width(v))
    ensures var size := Power(2, Width(v) - prefix);
      size > 0 && Mask(v, value, prefix) == value / size * size && Mask(v, value, prefix) <= value
  {
    AndNetmask(value, prefix, Width(v) - prefix);
    ClearLowRounds(value, Width(v) - prefix);
    DivModStep(value, Power(2, Width(v) - prefix));
  }

  lemma MaskRoundsDown(v: Version, value: nat, prefix: nat)
    requires prefix <= Width(v) && value < Power(2, Width(v))
    ensures Power(2, Width(v) - prefix) > 0
    ensures Mask(v, value, prefix) == value / Power(2, Width(v) - prefix) * Power(2, Width(v) - prefix)
    ensures Mask(v, value, prefix) <= value
    ensures Mask(v, Mask(v, value, prefix), prefix) == Mask(v, value, prefix)
  {
    var size := Power(2, Width(v) - prefix);
    MaskRounds(v, value, prefix);
    MaskRounds(v, value / size * size, prefix);
    DivExact(value / size, size);
  }

  lemma BlockOf(value: nat, start: nat, size: nat)
    requires size > 0
    ensures value / size * size == start * size <==> start * size <= value < start * size + size
  {
    DivModStep(value, size);
    var q := value / size;
    if q < start { MulStep(q, start, size); }
    if start < q { MulStep(start, q, size); }
  }

  /** Masked comparison is interval membership, for both widths. */
  lemma ContainsIsInterval(a: Address, prefix: nat, c: Address)
    requires prefix <= Width(a.version) && ValidAddress(a) && ValidAddress(c)
    ensures ValidNetwork(Masked(a, prefix))
    ensures Contains(Masked(a, prefix), c) <==> InBlock(a, prefix, c)
  {
    hide Power, ShiftLeft, BitAnd;
    MaskRoundsDown(a.version, a.value, prefix);
    if a.version == c.version {
      MaskRoundsDown(c.version, c.value, prefix);
      var size := Power(2, Width(a.version) - prefix);
      BlockOf(c.value, a.value / size, size);
    }
  }

  // ----- reading -----

  function ParseGroups(parts: seq<string>, one: string -> Option<nat>): (r: Option<seq<nat>>)
    ensures r.Some? ==> |r.value| == |parts|
  {
    if parts == [] then Some([])
    else match (one(parts[0]), ParseGroups(parts[1..], one))
      case (Some(g), Some(rest)) => Some([g] + rest)
      case _ => None
  }

  function ParseOctet(s: string): Option<nat> {
    if IsNumeral(s, 10) && |s| <= 3 && (s == "0" || s[0] != '0') && Parse(s, 10) < 256
    then Some(Parse(s, 10)) else None
  }

  function ParseHextet(s: string): Option<nat> {
    if IsNumeral(s, 16) && |s| <= 4 then Some(Parse(s, 16)) else None
  }

  function ParseV4(text: string): (r: Option<seq<nat>>)
    ensures r.Some? ==> |r.value| == 4
  {
    var parts := Split(text, '.');
    if |parts| != 4 then None else ParseGroups(parts, ParseOctet)
  }

  /** The colon-separated parts, a dotted-quad tail rewritten as two hextets. */
  function V6Parts(text: string): (r: Option<seq<string>>)
    ensures r.Some? ==> |r.value| >= 3
  {
    var parts := Split(text, ':');
    var last := parts[|parts| - 1];
    if |parts| < 3 then None
    else if '.' !in last then Some(parts)
    else match ParseV4(last)
      case None => None
      case Some(g) =>
        Some(parts[..|parts| - 1] + [Print(g[0] * 256 + g[1], 16), Print(g[2] * 256 + g[3], 16)])
  }

  /** The first inner empty part at or after `i`, or the last index when there is none. */
  function SkipIndex(parts: seq<string>, i: nat): (k: nat)
    requires i < |parts|
    ensures i <= k < |parts|
    ensures k < |parts| - 1 ==> parts[k] == ""
    ensures forall j :: i <= j < k ==> parts[j] != ""
    decreases |parts| - i
  {
    if i == |parts| - 1 || parts[i] == "" then i else SkipIndex(parts, i + 1)
  }

  function Zeros(n: nat): (g: seq<nat>)
    ensures |g| == n && forall i :: 0 <= i < n ==> g[i] == 0
  {
    if n == 0 then [] else [0] + Zeros(n - 1)
  }

  function ParseV6Parts(parts: seq<string>): (r: Option<seq<nat>>)
    requires |parts| >= 3
    ensures r.Some? ==> |r.value| == 8
  {
    var last := |parts| - 1;
    var skip := SkipIndex(parts, 1);
    if |parts| > 9 then None
    else if skip == last then
      // no "::", so all eight groups must be present
      if |parts| != 8 then None else ParseGroups(parts, ParseHextet)
    else if SkipIndex(parts, skip + 1) != last then None
    else ParseAround(parts, skip)
  }

  /** The groups before and after a "::" at `skip`, with zeros in between. */
  function ParseAround(parts: seq<string>, skip: nat): (r: Option<seq<nat>>)
    requires 1 <= skip < |parts| - 1
    ensures r.Some? ==> |r.value| == 8
  {
    var last := |parts| - 1;
    var hi := if parts[0] == "" then skip - 1 else skip;
    var lo := if parts[last] == "" then last - skip - 1 else last - skip;
    if (parts[0] == "" && hi != 0) || (parts[last] == "" && lo != 0) || hi + lo > 7 then None
    else FillGap(ParseGroups(parts[..hi], ParseHextet), ParseGroups(parts[|parts| - lo..], ParseHextet))
  }

  function FillGap(left: Option<seq<nat>>, right: Option<seq<nat>>): (r: Option<seq<nat>>)
    requires left.Some? && right.Some? ==> |left.value| + |right.value| <= 8
    ensures r.Some? ==> |r.value| == 8
  {
    if left.None? || right.None? then None
    else Some(left.value + Zeros(8 - |left.value| - |right.value|) + right.value)
  }

  function ParseV6(text: string): (r: Option<seq<nat>>)
    ensures r.Some? ==> |r.value| == 8
  {
    match V6Parts(text)
    case None => None
    case Some(parts) => ParseV6Parts(parts)
  }

  /** `ipaddress.ip_address`. */
  function ParseAddress(text: string): Option<Address> {
    match ParseV4(text)
    case Some(g) => Some(Address(V4, Compose(g, 256)))
    case None =>
      match ParseV6(text)
      case Some(g) => Some(Address(V6, Compose(g, 65536)))
      case None => None
  }

  function FindPrefix(mask: nat, p: nat): (r: Option<nat>)
    requires p <= 32
    ensures r.Some? ==> r.value <= 32 && mask == Netmask(32, r.value)
    decreases 32 - p
  {
    if mask == Netmask(32, p) then Some(p) else if p == 32 then None else FindPrefix(mask, p + 1)
  }

  /** The part after the slash: a prefix length or, for IPv4, a dotted net mask or host mask. */
  function ParsePrefix(v: Version, text: string): (r: Option<nat>)
    ensures r.Some? ==> r.value <= Width(v)
  {
    if IsNumeral(text, 10) && Parse(text, 10) <= Width(v) then Some(Parse(text, 10))
    else if v.V6? then None
    else match ParseV4(text)
      case None => None
      case Some(g) =>
        var mask := Compose(g, 256);
        match FindPrefix(mask, 0)
        case Some(p) => Some(p)
        case None => if mask <= Power(2, 32) - 1 then FindPrefix(Power(2, 32) - 1 - mask, 0) else None
  }

  datatype Entry = Entry(address: Address, prefix: nat)

  /** An entry as written: its address with host bits still in place, and its prefix length. */
  function ParseEntry(text: string): (r: Option<Entry>)
    ensures r.Some? ==> r.value.prefix <= Width(r.value.address.version)
  {
    var parts := Split(text, '/');
    if |parts| > 2 then None
    else match ParseAddress(parts[0])
      case None => None
      case Some(a) =>
        if |parts| == 1 then Some(Entry(a, Width(a.version)))
        else match ParsePrefix(a.version, parts[1])
          case None => None
          case Some(p) => Some(Entry(a, p))
  }

  /** `ipaddress.ip_network(text, strict=False)`. */
  function ParseNetwork(text: string): Option<Network> {
    match ParseEntry(text)
    case None => None
    case Some(e) => Some(Masked(e.address, e.prefix))
  }

  // ----- printing -----

  function PrintGroups(g: seq<nat>, b: nat): (parts: seq<string>)
    requires 2 <= b <= 16
    ensures |parts| == |g|
  {
    if g == [] then [] else [Print(g[0], b)] + PrintGroups(g[1..], b)
  }

  /** How many zero groups start at `i`. */
  function ZeroRun(g: seq<nat>, i: nat): (n: nat)
    requires i <= |g|
    ensures i + n <= |g|
    ensures forall j :: i <= j < i + n ==> g[j] == 0
    ensures i + n < |g| ==> g[i + n] != 0
    decreases |g| - i
  {
    if i == |g| || g[i] != 0 then 0 else 1 + ZeroRun(g, i + 1)
  }

  /** The start of the longest run of zero groups at or after `i`, the leftmost on a tie. */
  function LongestRun(g: seq<nat>, i: nat): (k: nat)
    requires i <= |g|
    ensures i <= k <= |g|
    ensures forall j :: i <= j <= |g| ==> ZeroRun(g, j) <= ZeroRun(g, k)
    ensures forall j :: i <= j < k ==> ZeroRun(g, j) < ZeroRun(g, k)
    decreases |g| - i
  {
    if i == |g| then i
    else
      var k := LongestRun(g, i + 1);
      if ZeroRun(g, i) >= ZeroRun(g, k) then i else k
  }

  /** Left and right hextets around "::"; an empty side contributes the extra colon. */
  function Compressed(l: seq<string>, r: seq<string>): seq<string> {
    (if l == [] then [""] else []) + l + [""] + r + (if r == [] then [""] else [])
  }

  /** Hextets with the longest run of at least two zeros replaced by "::". */
  function CompressedParts(g: seq<nat>): seq<string> {
    var start := LongestRun(g, 0);
    var n := ZeroRun(g, start);
    if n < 2 then PrintGroups(g, 16)
    else Compressed(PrintGroups(g[..start], 16), PrintGroups(g[start + n..], 16))
  }

  function AddressGroups(a: Address): (g: seq<nat>)
    ensures |g| == Groups(a.version) && AreGroups(g, GroupBase(a.version))
  {
    Decompose(a.value, GroupBase(a.version), Groups(a.version))
  }

  function PrintAddress(a: Address): string {
    var g := AddressGroups(a);
    if a.version.V4? then Join(PrintGroups(g, 10), '.') else Join(CompressedParts(g), ':')
  }

  function PrintNetwork(n: Network): string {
    PrintAddress(Address(n.version, n.base)) + ['/'] + Print(n.prefix, 10)
  }

  // ----- reading back what was printed -----

  lemma {:induction false} ParsePrintedOctets(g: seq<nat>)
    requires AreGroups(g, 256)
    ensures ParseGroups(PrintGroups(g, 10), ParseOctet) == Some(g)
  {
    if g != [] {
      var o := g[0];
      assert PrintGroups(g, 10)[1..] == PrintGroups(g[1..], 10);
      ParsePrint(o, 10);
      PrintChars(o, 10);
      assert Power(10, 3) == 1000;
      PrintLength(o, 10, 3);
      assert ParseOctet(Print(o, 10)) == Some(o);
      ParsePrintedOctets(g[1..]);
      assert [o] + g[1..] == g;
    }
  }

  lemma {:induction false} ParsePrintedHextets(g: seq<nat>)
    requires AreGroups(g, 65536)
    ensures ParseGroups(PrintGroups(g, 16), ParseHextet) == Some(g)
  {
    if g != [] {
      var o := g[0];
      assert PrintGroups(g, 16)[1..] == PrintGroups(g[1..], 16);
      ParsePrint(o, 16);
      PrintChars(o, 16);
      assert Power(16, 4) == 65536;
      PrintLength(o, 16, 4);
      assert ParseHextet(Print(o, 16)) == Some(o);
      ParsePrintedHextets(g[1..]);
      assert [o] + g[1..] == g;
    }
  }

  lemma {:induction false} PrintedGroupChars(g: seq<nat>, b: nat)
    requires 2 <= b <= 16
    ensures forall p, c :: p in PrintGroups(g, b) && c in p ==> IsLowerDigit(c)
    ensures NoEmpty(PrintGroups(g, b))
  {
    if g != [] {
      PrintChars(g[0], b);
      PrintedGroupChars(g[1..], b);
    }
  }

  lemma SkipFound(parts: seq<string>, i: nat, k: nat)
    requires i <= k < |parts|
    requires forall j :: i <= j < k ==> parts[j] != ""
    requires k == |parts| - 1 || parts[k] == ""
    ensures SkipIndex(parts, i) == k
  {
  }

  lemma ParseUncompressed(g: seq<nat>)
    requires |g| == 8 && AreGroups(g, 65536)
    ensures ParseV6Parts(PrintGroups(g, 16)) == Some(g)
  {
    var parts := PrintGroups(g, 16);
    PrintedGroupChars(g, 16);
    SkipFound(parts, 1, 7);
    ParsePrintedHextets(g);
  }

  predicate NoEmpty(parts: seq<string>) {
    forall i :: 0 <= i < |parts| ==> parts[i] != ""
  }

  lemma CompressedShape(l: seq<string>, r: seq<string>)
    requires |l| + |r| <= 7 && NoEmpty(l) && NoEmpty(r)
    ensures var parts := Compressed(l, r);
            var skip := if l == [] then 1 else |l|;
            && 3 <= |parts| <= 9
            && |parts| - 1 - skip == (if r == [] then 1 else |r|)
            && (parts[0] == "" <==> l == []) && (parts[|parts| - 1] == "" <==> r == [])
            && SkipIndex(parts, 1) == skip && SkipIndex(parts, skip + 1) == |parts| - 1
            && parts[..|l|] == l
            && parts[|parts| - |r|..] == r
  {
    var parts := Compressed(l, r);
    var skip := if l == [] then 1 else |l|;
    if l == [] {
      assert parts[..2] == ["", ""];
      assert parts[2..] == r + (if r == [] then [""] else []);
    } else {
      assert parts[..|l|] == l;
      assert parts[skip] == "";
      assert parts[skip + 1..] == r + (if r == [] then [""] else []);
      forall j | 0 <= j < skip ensures parts[j] != "" { assert parts[j] == l[j]; }
    }
    assert r != [] ==> parts[skip + 1..] == r;
    forall j | 0 <= j < |r| ensures parts[skip + 1 + j] == r[j] {
      assert parts[skip + 1..][j] == r[j];
    }
    SkipFound(parts, 1, skip);
    SkipFound(parts, skip + 1, |parts| - 1);
  }

  lemma ParseCompressed(l: seq<string>, r: seq<string>)
    requires |l| + |r| <= 7 && NoEmpty(l) && NoEmpty(r)
    ensures |Compressed(l, r)| >= 3
    ensures ParseV6Parts(Compressed(l, r)) == FillGap(ParseGroups(l, ParseHextet), ParseGroups(r, ParseHextet))
  {
    var parts := Compressed(l, r);
    CompressedShape(l, r);
    var skip := if l == [] then 1 else |l|;
    var last := |parts| - 1;
    var hi := if parts[0] == "" then skip - 1 else skip;
    var lo := if parts[last] == "" then last - skip - 1 else last - skip;
    assert hi == |l| && lo == |r|;
    assert ParseV6Parts(parts) == ParseAround(parts, skip);
  }

  /** Cutting out a run of zeros leaves a gap that is filled with the same. */
  lemma RunSplits(g: seq<nat>, i: nat)
    requires i <= |g| == 8
    ensures FillGap(Some(g[..i]), Some(g[i + ZeroRun(g, i)..])) == Some(g)
  {
    var n := ZeroRun(g, i);
    assert 8 - i - (8 - i - n) == n;
    assert g == g[..i] + Zeros(n) + g[i + n..];
  }

  lemma ParseShortened(left: seq<nat>, right: seq<nat>)
    requires |left| + |right| <= 6 && AreGroups(left, 65536) && AreGroups(right, 65536)
    ensures var parts := Compressed(PrintGroups(left, 16), PrintGroups(right, 16));
      |parts| >= 3 && ParseV6Parts(parts) == FillGap(Some(left), Some(right))
  {
    PrintedGroupChars(left, 16);
    PrintedGroupChars(right, 16);
    ParseCompressed(PrintGroups(left, 16), PrintGroups(right, 16));
    ParsePrintedHextets(left);
    ParsePrintedHextets(right);
  }

  lemma ParseCompressedParts(g: seq<nat>)
    requires |g| == 8 && AreGroups(g, 65536)
    ensures |CompressedParts(g)| >= 3
    ensures ParseV6Parts(CompressedParts(g)) == Some(g)
  {
    hide Compressed, FillGap, ParseV6Parts, LongestRun;
    var start := LongestRun(g, 0);
    var n := ZeroRun(g, start);
    if n < 2 {
      ParseUncompressed(g);
    } else {
      var left, right := g[..start], g[start + n..];
      ParseShortened(left, right);
      RunSplits(g, start);
    }
  }

  lemma CompressedChars(g: seq<nat>)
    ensures forall p, c :: p in CompressedParts(g) && c in p ==> IsLowerDigit(c)
  {
    hide PrintGroups, LongestRun, ZeroRun;
    var start := LongestRun(g, 0);
    PrintedGroupChars(g, 16);
    PrintedGroupChars(g[..start], 16);
    PrintedGroupChars(g[start + ZeroRun(g, start)..], 16);
  }

  /** IPv6 text: parsing undoes canonical printing. */
  lemma ParsePrintedV6(g: seq<nat>)
    requires |g| == 8 && AreGroups(g, 65536)
    ensures ParseV6(Join(CompressedParts(g), ':')) == Some(g)
  {
    var parts := CompressedParts(g);
    ParseCompressedParts(g);
    CompressedChars(g);
    forall p | p in parts ensures Free(p, ':') && '.' !in p { }
    SplitJoin(parts, ':');
    assert parts[|parts| - 1] in parts;
  }

  predicate IsAddressChar(c: char) {
    IsLowerDigit(c) || c == '.' || c == ':'
  }

  lemma {:induction false} ParsedGroups(parts: seq<string>, one: string -> Option<nat>, b: nat)
    requires forall s :: one(s).Some? ==> one(s).value < b
    ensures ParseGroups(parts, one).Some? ==> AreGroups(ParseGroups(parts, one).value, b)
  {
    if parts != [] {
      ParsedGroups(parts[1..], one, b);
    }
  }

  lemma HextetBound(s: string)
    ensures ParseHextet(s).Some? ==> ParseHextet(s).value < 65536
  {
    if ParseHextet(s).Some? {
      ParseBound(s, 16);
      PowerMono(16, |s|, 4);
      assert Power(16, 4) == 65536;
    }
  }

  lemma V4Groups(text: string)
    ensures ParseV4(text).Some? ==> AreGroups(ParseV4(text).value, 256)
  {
    ParsedGroups(Split(text, '.'), ParseOctet, 256);
  }

  lemma V6Groups(text: string)
    ensures ParseV6(text).Some? ==> AreGroups(ParseV6(text).value, 65536)
  {
    var parts := V6Parts(text);
    if parts.Some? {
      V6PartsGroups(parts.value);
    }
  }

  lemma V6PartsGroups(p: seq<string>)
    requires |p| >= 3
    ensures ParseV6Parts(p).Some? ==> AreGroups(ParseV6Parts(p).value, 65536)
  {
    forall s: string ensures ParseHextet(s).Some? ==> ParseHextet(s).value < 65536 { HextetBound(s); }
    ParsedGroups(p, ParseHextet, 65536);
    var skip := SkipIndex(p, 1);
    if skip < |p| - 1 {
      AroundGroups(p, skip);
    }
  }

  lemma AroundGroups(p: seq<string>, skip: nat)
    requires 1 <= skip < |p| - 1
    requires forall s: string :: ParseHextet(s).Some? ==> ParseHextet(s).value < 65536
    ensures ParseAround(p, skip).Some? ==> AreGroups(ParseAround(p, skip).value, 65536)
  {
    hide Power, ParseHextet;
    var last := |p| - 1;
    var hi := if p[0] == "" then skip - 1 else skip;
    var lo := if p[last] == "" then last - skip - 1 else last - skip;
    ParsedGroups(p[..hi], ParseHextet, 65536);
    ParsedGroups(p[|p| - lo..], ParseHextet, 65536);
  }

  lemma GroupPower(v: Version)
    ensures Power(GroupBase(v), Groups(v)) == Power(2, Width(v))
  {
    assert Power(2, 8) == 256;
    PowerAdd(2, 8, 8);
    PowerPower(2, 8, 4);
    PowerPower(2, 16, 8);
  }

  lemma ParsedAddressValid(text: string)
    ensures ParseAddress(text).Some? ==> ValidAddress(ParseAddress(text).value)
  {
    V4Groups(text);
    V6Groups(text);
    GroupPower(V4);
    GroupPower(V6);
    match ParseV4(text)
    case Some(g) => ComposeBound(g, 256);
    case None =>
      match ParseV6(text)
      case Some(g) => ComposeBound(g, 65536);
      case None =>
  }

  lemma V4NeedsNoColon(text: string)
    requires ':' in text
    ensures ParseV4(text).None?
  {
    var parts := Split(text, '.');
    SplitParts(text, '.');
    JoinChars(parts, '.');
    var i :| 0 <= i < |parts| && ':' in parts[i];
    assert ParseOctet(parts[i]).None? by {
      var j :| 0 <= j < |parts[i]| && parts[i][j] == ':';
      assert DigitValue(parts[i][j]) >= 10;
    }
    OneBad(parts, ParseOctet, i);
  }

  lemma {:induction false} OneBad(parts: seq<string>, one: string -> Option<nat>, i: nat)
    requires i < |parts| && one(parts[i]).None?
    ensures ParseGroups(parts, one).None?
  {
    if i > 0 {
      OneBad(parts[1..], one, i - 1);
    }
  }

  lemma PrintedV4(g: seq<nat>)
    requires |g| == 4 && AreGroups(g, 256)
    ensures ParseV4(Join(PrintGroups(g, 10), '.')) == Some(g)
    ensures forall c :: c in Join(PrintGroups(g, 10), '.') ==> IsAddressChar(c)
    ensures Join(PrintGroups(g, 10), '.') != ""
  {
    var parts := PrintGroups(g, 10);
    PrintedGroupChars(g, 10);
    ParsePrintedOctets(g);
    forall p | p in parts ensures Free(p, '.') { }
    SplitJoin(parts, '.');
    JoinChars(parts, '.');
    JoinCons(parts, '.');
  }

  lemma PrintedV6(g: seq<nat>)
    requires |g| == 8 && AreGroups(g, 65536)
    ensures ParseV4(Join(CompressedParts(g), ':')).None?
    ensures ParseV6(Join(CompressedParts(g), ':')) == Some(g)
    ensures forall c :: c in Join(CompressedParts(g), ':') ==> IsAddressChar(c)
    ensures Join(CompressedParts(g), ':') != ""
  {
    var parts := CompressedParts(g);
    var text := Join(parts, ':');
    ParseCompressedParts(g);
    CompressedChars(g);
    JoinChars(parts, ':');
    forall c | c in text && c != ':' ensures IsAddressChar(c) {
      var i :| 0 <= i < |parts| && c in parts[i];
      assert parts[i] in parts;
    }
    JoinCons(parts, ':');
    assert text[|parts[0]|] == ':';
    V4NeedsNoColon(text);
    ParsePrintedV6(g);
  }

  lemma AddressFromGroups(a: Address)
    requires ValidAddress(a)
    ensures Compose(AddressGroups(a), GroupBase(a.version)) == a.value
  {
    GroupPower(a.version);
    ComposeDecompose(a.value, GroupBase(a.version), Groups(a.version));
  }

  /** Canonical address text reads back as the same address, for both versions. */
  lemma ParsePrintedAddress(a: Address)
    requires ValidAddress(a)
    ensures ParseAddress(PrintAddress(a)) == Some(a)
    ensures forall c :: c in PrintAddress(a) ==> IsAddressChar(c)
    ensures PrintAddress(a) != ""
  {
    AddressFromGroups(a);
    var g := AddressGroups(a);
    if a.version.V4? {
      PrintedV4(g);
      ParseEither(PrintAddress(a), a, g);
    } else {
      PrintedV6(g);
      ParseEither(PrintAddress(a), a, g);
    }
  }

  lemma ParseEither(text: string, a: Address, g: seq<nat>)
    requires a.value == Compose(g, GroupBase(a.version))
    requires a.version.V4? ==> ParseV4(text) == Some(g)
    requires a.version.V6? ==> ParseV4(text).None? && ParseV6(text) == Some(g)
    ensures ParseAddress(text) == Some(a)
  {
  }

  lemma PrefixText(p: nat)
    ensures IsNumeral(Print(p, 10), 10) && Parse(Print(p, 10), 10) == p
    ensures forall c :: c in Print(p, 10) ==> IsAddressChar(c)
  {
    ParsePrint(p, 10);
    PrintChars(p, 10);
  }

  lemma EntryText(head: string, tail: string)
    requires '/' !in head && '/' !in tail
    ensures Split(head + ['/'] + tail, '/') == [head, tail]
  {
    SplitCons(head, tail, '/');
    SplitParts(tail, '/');
  }

  /** Canonical network text reads back as the same network. */
  lemma ParsePrintedNetwork(n: Network)
    requires ValidNetwork(n)
    ensures ParseEntry(PrintNetwork(n)) == Some(Entry(Address(n.version, n.base), n.prefix))
    ensures ParseNetwork(PrintNetwork(n)) == Some(n)
    ensures forall c :: c in PrintNetwork(n) ==> IsAddressChar(c) || c == '/'
    ensures '/' in PrintNetwork(n)
  {
    var a := Address(n.version, n.base);
    ParsePrintedAddress(a);
    PrefixText(n.prefix);
    EntryText(PrintAddress(a), Print(n.prefix, 10));
  }
}
