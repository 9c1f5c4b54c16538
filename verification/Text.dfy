/** The string operations the repository relies on, with the few laws about them that
    the other modules need. */
module Text {

  datatype Option<+T> = None | Some(value: T)

  /** Characters `str.isspace` accepts, which are also the ones `\s` matches. */
  predicate IsSpace(c: char) {
    var n := c as int;
    || 0x09 <= n <= 0x0D || 0x1C <= n <= 0x20 || n == 0x85 || n == 0xA0 || n == 0x1680
    || 0x2000 <= n <= 0x200A || n == 0x2028 || n == 0x2029 || n == 0x202F || n == 0x205F || n == 0x3000
  }

  predicate IsDigit(c: char) {
    '0' <= c <= '9'
  }

  predicate IsLetter(c: char) {
    'a' <= c <= 'z' || 'A' <= c <= 'Z'
  }

  function LowerChar(c: char): (r: char)
    ensures IsSpace(r) <==> IsSpace(c)
    ensures !('A' <= r <= 'Z')
  {
    if 'A' <= c <= 'Z' then (c as int + 32) as char else c
  }

  function Lower(s: string): (r: string)
    ensures |r| == |s|
    ensures forall i :: 0 <= i < |s| ==> r[i] == LowerChar(s[i])
  {
    if s == "" then "" else [LowerChar(s[0])] + Lower(s[1..])
  }

  lemma LowerIdempotent(s: string)
    ensures Lower(Lower(s)) == Lower(s)
  {
    assert forall i :: 0 <= i < |s| ==> Lower(Lower(s))[i] == Lower(s)[i];
  }

  /** `s or t` on strings. */
  function Or(s: string, t: string): string {
    if s != "" then s else t
  }

  function Clip(s: string, limit: nat): string {
    if |s| <= limit then s else s[..limit]
  }

  predicate StartsWith(s: string, prefix: string) {
    |prefix| <= |s| && s[..|prefix|] == prefix
  }

  // ----- stripping -----

  /** `r` is what is left of `s` after its first characters, all accepted by `p`, were dropped. */
  predicate Dropped(s: string, r: string, p: char -> bool) {
    && |r| <= |s|
    && (forall i :: 0 <= i < |r| ==> r[i] == s[|s| - |r| + i])
    && (forall i :: 0 <= i < |s| - |r| ==> p(s[i]))
  }

  lemma OneMoreDropped(s: string, r: string, p: char -> bool)
    requires s != "" && p(s[0]) && Dropped(s[1..], r, p)
    ensures Dropped(s, r, p)
  {
    assert forall i :: 0 < i < |s| ==> s[i] == s[1..][i - 1];
  }

  function DropWhile(s: string, p: char -> bool): (r: string)
    ensures Dropped(s, r, p)
    ensures r != "" ==> !p(r[0])
  {
    if s != "" && p(s[0]) then
      OneMoreDropped(s, DropWhile(s[1..], p), p);
      DropWhile(s[1..], p)
    else s
  }

  /** The same at the end. */
  predicate DroppedEnd(s: string, r: string, p: char -> bool) {
    && |r| <= |s|
    && (forall i :: 0 <= i < |r| ==> r[i] == s[i])
    && (forall i :: |r| <= i < |s| ==> p(s[i]))
  }

  function DropEndWhile(s: string, p: char -> bool): (r: string)
    ensures DroppedEnd(s, r, p)
    ensures r != "" ==> !p(r[|r| - 1])
  {
    if s != "" && p(s[|s| - 1]) then DropEndWhile(s[..|s| - 1], p) else s
  }

  function Trim(s: string): string {
    DropEndWhile(DropWhile(s, IsSpace), IsSpace)
  }

  predicate Blank(s: string) {
    forall i :: 0 <= i < |s| ==> IsSpace(s[i])
  }

  /** No white space at either end. */
  predicate Trimmed(s: string) {
    s != "" ==> !IsSpace(s[0]) && !IsSpace(s[|s| - 1])
  }

  /** `t` is `s` from position `i` on, with only white space around it. */
  predicate PartOf(s: string, t: string, i: nat) {
    && i + |t| <= |s|
    && (forall k :: 0 <= k < |t| ==> t[k] == s[i + k])
    && (forall k :: 0 <= k < |s| && !(i <= k < i + |t|) ==> IsSpace(s[k]))
  }

  lemma DroppedBoth(s: string, d: string, t: string)
    requires Dropped(s, d, IsSpace) && DroppedEnd(d, t, IsSpace)
    ensures PartOf(s, t, |s| - |d|)
  {
    hide IsSpace;
    forall k | 0 <= k < |d| ensures s[|s| - |d| + k] == d[k] {
    }
    forall k | |s| - |d| <= k < |s| ensures s[k] == d[k - (|s| - |d|)] {
      assert d[k - (|s| - |d|)] == s[|s| - |d| + (k - (|s| - |d|))];
    }
  }

  lemma TrimPart(s: string) returns (i: nat)
    ensures PartOf(s, Trim(s), i) && Trimmed(Trim(s))
  {
    hide DropWhile, DropEndWhile, DroppedEnd, PartOf, IsSpace;
    var d := DropWhile(s, IsSpace);
    DroppedBoth(s, d, Trim(s));
    i := |s| - |d|;
    TrimmedEnd(d, Trim(s));
  }

  lemma TrimmedEnd(d: string, t: string)
    requires DroppedEnd(d, t, IsSpace) && (d != "" ==> !IsSpace(d[0])) && (t != "" ==> !IsSpace(t[|t| - 1]))
    ensures Trimmed(t)
  {
  }

  lemma TrimFixes(s: string)
    ensures Trim(s) == s <==> Trimmed(s)
    ensures Trimmed(Trim(s))
    ensures Trim(s) == "" <==> Blank(s)
    ensures |Trim(s)| <= |s|
    ensures forall c :: c in Trim(s) ==> c in s
  {
    hide Trim, IsSpace;
    var i := TrimPart(s);
    var t := Trim(s);
    if t != "" {
      assert t[0] == s[i] && !IsSpace(t[0]);
    }
    if Trimmed(s) && s != "" {
      assert !IsSpace(s[0]) && !IsSpace(s[|s| - 1]);
    }
  }

  lemma EndLength(s: string, i: nat)
    requires i < |s| && !IsSpace(s[i])
    ensures |DropEndWhile(s, IsSpace)| > i
  {
  }

  lemma EndIsPrefix(s: string, p: char -> bool)
    ensures DropEndWhile(s, p) == s[..|DropEndWhile(s, p)|]
  {
  }

  /** Stripping text that starts solid keeps it up to any solid place. */
  lemma TrimKeeps(s: string, i: nat)
    requires i < |s| && !IsSpace(s[0]) && !IsSpace(s[i])
    ensures i < |Trim(s)| <= |s| && Trim(s) == s[..|Trim(s)|]
  {
    EndLength(s, i);
    EndIsPrefix(s, IsSpace);
  }

  /** The two ways a loop over `s` cuts it at `i`. */
  lemma PrefixStep<T>(s: seq<T>, i: nat)
    requires i < |s|
    ensures s[..i + 1] == s[..i] + [s[i]]
    ensures s == s[..i + 1] + s[i + 1..]
  {
  }

  lemma Concat3<T>(a: seq<T>, b: seq<T>, c: seq<T>)
    ensures a + b + c == a + (b + c)
    ensures (a + b + c)[|a|..] == b + c && (b + c)[|b|..] == c && (b + c)[..|b|] == b
  {
  }

  lemma ConsAppend<T>(a: seq<T>, b: seq<T>)
    requires a != []
    ensures a + b != [] && (a + b)[0] == a[0] && (a + b)[1..] == a[1..] + b
    ensures [a[0]] + a[1..] == a
  {
  }

  // ----- splitting and joining on one character -----

  function Split(s: string, sep: char): (parts: seq<string>)
    ensures parts != []
  {
    if s == "" then [""]
    else
      var rest := Split(s[1..], sep);
      if s[0] == sep then [""] + rest else [[s[0]] + rest[0]] + rest[1..]
  }

  function Join(parts: seq<string>, sep: char): string {
    if parts == [] then ""
    else if |parts| == 1 then parts[0]
    else parts[0] + [sep] + Join(parts[1..], sep)
  }

  predicate Free(s: string, sep: char) {
    sep !in s
  }

  lemma SplitPrepends(s: string, sep: char)
    requires s != ""
    ensures s[0] == sep ==> Split(s, sep) == [""] + Split(s[1..], sep)
    ensures s[0] != sep ==> Split(s, sep) == [[s[0]] + Split(s[1..], sep)[0]] + Split(s[1..], sep)[1..]
  {
  }

  lemma JoinPrepends(c: char, parts: seq<string>, sep: char)
    requires parts != []
    ensures Join([""] + parts, sep) == [sep] + Join(parts, sep)
    ensures Join([[c] + parts[0]] + parts[1..], sep) == [c] + Join(parts, sep)
  {
    assert ([""] + parts)[1..] == parts;
    var longer := [[c] + parts[0]] + parts[1..];
    assert longer[1..] == parts[1..];
    if |parts| > 1 {
      Concat3([c] + parts[0], [sep], Join(parts[1..], sep));
      Concat3([c], parts[0], [sep] + Join(parts[1..], sep));
      Concat3(parts[0], [sep], Join(parts[1..], sep));
    }
  }

  lemma {:induction false} SplitJoins(s: string, sep: char)
    ensures Join(Split(s, sep), sep) == s
  {
    if s != "" {
      SplitJoins(s[1..], sep);
      SplitPrepends(s, sep);
      JoinPrepends(s[0], Split(s[1..], sep), sep);
      ConsAppend(s, "");
    }
  }

  lemma {:induction false} SplitChars(s: string, sep: char)
    ensures forall p :: p in Split(s, sep) ==> Free(p, sep)
    ensures forall p, c :: p in Split(s, sep) && c in p ==> c in s
    ensures |Split(s, sep)| == 1 <==> Free(s, sep)
  {
    if s != "" {
      SplitChars(s[1..], sep);
      SplitPrepends(s, sep);
      var rest := Split(s[1..], sep);
      assert rest[0] in rest;
      ConsAppend(s, "");
    }
  }

  lemma SplitParts(s: string, sep: char)
    ensures forall p :: p in Split(s, sep) ==> Free(p, sep)
    ensures forall p, c :: p in Split(s, sep) && c in p ==> c in s
    ensures Join(Split(s, sep), sep) == s
    ensures |Split(s, sep)| == 1 <==> Free(s, sep)
    ensures sep !in s ==> Split(s, sep) == [s]
  {
    SplitJoins(s, sep);
    SplitChars(s, sep);
    if Free(s, sep) {
      assert Split(s, sep) == [Split(s, sep)[0]];
    }
  }

  lemma {:induction false} SplitCons(head: string, tail: string, sep: char)
    requires Free(head, sep)
    ensures Split(head + [sep] + tail, sep) == [head] + Split(tail, sep)
  {
    var s := head + [sep] + tail;
    if head == "" {
      assert s[1..] == tail;
    } else {
      SplitCons(head[1..], tail, sep);
      assert s[1..] == head[1..] + [sep] + tail;
      assert [head[0]] + head[1..] == head;
    }
  }

  lemma {:induction false} SplitJoin(parts: seq<string>, sep: char)
    requires parts != []
    requires forall p :: p in parts ==> Free(p, sep)
    ensures Split(Join(parts, sep), sep) == parts
  {
    if |parts| == 1 {
      SplitParts(parts[0], sep);
    } else {
      SplitJoin(parts[1..], sep);
      SplitCons(parts[0], Join(parts[1..], sep), sep);
    }
  }

  lemma {:induction false} JoinChars(parts: seq<string>, sep: char)
    ensures forall c :: c in Join(parts, sep) ==> c == sep || exists i :: 0 <= i < |parts| && c in parts[i]
    ensures forall i, c :: 0 <= i < |parts| && c in parts[i] ==> c in Join(parts, sep)
  {
    if |parts| > 1 {
      JoinChars(parts[1..], sep);
      forall c | c in Join(parts, sep)
        ensures c == sep || exists i :: 0 <= i < |parts| && c in parts[i]
      {
        if c in Join(parts[1..], sep) && c != sep {
          var i :| 0 <= i < |parts[1..]| && c in parts[1..][i];
          assert c in parts[i + 1];
        }
      }
    }
  }

  /** A join whose parts are trimmed and not empty is trimmed. */
  lemma {:induction false} JoinTrimmed(parts: seq<string>, sep: char)
    requires forall i :: 0 <= i < |parts| ==> parts[i] != "" && Trimmed(parts[i])
    ensures Trimmed(Join(parts, sep))
    ensures parts != [] ==> Join(parts, sep) != ""
  {
    if |parts| > 1 {
      JoinTrimmed(parts[1..], sep);
      var j := Join(parts[1..], sep);
      var all := Join(parts, sep);
      assert j != "" && all[|all| - 1] == j[|j| - 1] && all[0] == parts[0][0];
    }
  }

  // ----- tokens: the non-empty runs between separators -----

  function TakeWhile(s: string, p: char -> bool): (r: string)
    ensures |r| <= |s| && forall i :: 0 <= i < |r| ==> r[i] == s[i]
    ensures |r| < |s| ==> !p(s[|r|])
    ensures forall i :: 0 <= i < |r| ==> p(s[i])
  {
    if s != "" && p(s[0]) then [s[0]] + TakeWhile(s[1..], p) else ""
  }

  function Token(s: string, isSep: char -> bool): (r: string)
    ensures |r| <= |s| && forall i :: 0 <= i < |r| ==> r[i] == s[i]
    ensures |r| < |s| ==> isSep(s[|r|])
    ensures forall i :: 0 <= i < |r| ==> !isSep(s[i])
  {
    if s != "" && !isSep(s[0]) then [s[0]] + Token(s[1..], isSep) else ""
  }

  predicate IsToken(s: string, isSep: char -> bool) {
    s != "" && forall i :: 0 <= i < |s| ==> !isSep(s[i])
  }

  function Tokens(s: string, isSep: char -> bool): seq<string>
    decreases |s|
  {
    var t := DropWhile(s, isSep);
    if t == "" then []
    else
      var w := Token(t, isSep);
      [w] + Tokens(t[|w|..], isSep)
  }

  lemma FirstToken(t: string, isSep: char -> bool)
    requires t != "" && !isSep(t[0])
    ensures IsToken(Token(t, isSep), isSep)
  {
  }

  lemma TokensEmpty(isSep: char -> bool)
    ensures Tokens("", isSep) == []
  {
  }

  lemma {:induction false} TokensAreTokens(s: string, isSep: char -> bool)
    ensures forall p :: p in Tokens(s, isSep) ==> IsToken(p, isSep)
    decreases |s|
  {
    hide DropWhile, Token, IsToken;
    var t := DropWhile(s, isSep);
    if t != "" {
      var w := Token(t, isSep);
      FirstToken(t, isSep);
      TokensAreTokens(t[|w|..], isSep);
    }
  }

  lemma {:induction false} TokenStops(head: string, tail: string, isSep: char -> bool)
    requires forall i :: 0 <= i < |head| ==> !isSep(head[i])
    requires tail != "" ==> isSep(tail[0])
    ensures Token(head + tail, isSep) == head
  {
    if head == "" {
      assert head + tail == tail;
    } else {
      TokenStops(head[1..], tail, isSep);
      assert (head + tail)[1..] == head[1..] + tail;
      assert [head[0]] + head[1..] == head;
    }
  }

  lemma TokensCons(head: string, tail: string, isSep: char -> bool)
    requires IsToken(head, isSep)
    requires tail != "" ==> isSep(tail[0])
    ensures Tokens(head + tail, isSep) == [head] + Tokens(tail, isSep)
  {
    var s := head + tail;
    TokenStops(head, tail, isSep);
    assert s[0] == head[0];
    assert DropWhile(s, isSep) == s;
    assert s[|head|..] == tail;
  }

  lemma TokensSkip(sep: char, tail: string, isSep: char -> bool)
    requires isSep(sep)
    ensures Tokens([sep] + tail, isSep) == Tokens(tail, isSep)
  {
    assert ([sep] + tail)[1..] == tail;
  }

  lemma {:induction false} TokensJoin(parts: seq<string>, sep: char, isSep: char -> bool)
    requires isSep(sep)
    requires forall p :: p in parts ==> IsToken(p, isSep)
    ensures Tokens(Join(parts, sep), isSep) == parts
  {
    hide Tokens, DropWhile, Token, IsToken;
    TokensEmpty(isSep);
    if parts == [] {
    } else if |parts| == 1 {
      TokensCons(parts[0], "", isSep);
      assert parts[0] + "" == parts[0];
    } else {
      var rest := parts[1..];
      TokensJoin(rest, sep, isSep);
      JoinCons(parts, sep);
      TokensCons(parts[0], [sep] + Join(rest, sep), isSep);
      TokensSkip(sep, Join(rest, sep), isSep);
    }
  }

  lemma JoinCons(parts: seq<string>, sep: char)
    requires |parts| > 1
    ensures Join(parts, sep) == parts[0] + ([sep] + Join(parts[1..], sep))
  {
  }

  // ----- cleaning a list -----

  /** The cleaned parts that are not empty. */
  function NonEmpty(parts: seq<string>, clean: string -> string): seq<string> {
    if parts == [] then []
    else (if clean(parts[0]) == "" then [] else [clean(parts[0])]) + NonEmpty(parts[1..], clean)
  }

  lemma NonEmptyStep(parts: seq<string>, i: nat, clean: string -> string)
    requires i < |parts|
    ensures NonEmpty(parts[..i + 1], clean)
         == NonEmpty(parts[..i], clean) + (if clean(parts[i]) == "" then [] else [clean(parts[i])])
    ensures NonEmpty(parts, clean) == NonEmpty(parts[..i + 1], clean) + NonEmpty(parts[i + 1..], clean)
  {
    PrefixStep(parts, i);
    NonEmptyAppend(parts[..i], [parts[i]], clean);
    NonEmptyOne(parts[i], clean);
    NonEmptyAppend(parts[..i + 1], parts[i + 1..], clean);
  }

  lemma NonEmptyOne(part: string, clean: string -> string)
    ensures NonEmpty([part], clean) == if clean(part) == "" then [] else [clean(part)]
  {
    assert [part][1..] == [];
  }

  lemma {:induction false} NonEmptyAppend(a: seq<string>, b: seq<string>, clean: string -> string)
    ensures NonEmpty(a + b, clean) == NonEmpty(a, clean) + NonEmpty(b, clean)
  {
    if a == [] {
      assert a + b == b;
    } else {
      NonEmptyAppend(a[1..], b, clean);
      ConsAppend(a, b);
      var first := if clean(a[0]) == "" then [] else [clean(a[0])];
      Concat3(first, NonEmpty(a[1..], clean), NonEmpty(b, clean));
    }
  }

  lemma {:induction false} NonEmptyFixed(parts: seq<string>, clean: string -> string)
    requires forall i :: 0 <= i < |parts| ==> parts[i] != "" && clean(parts[i]) == parts[i]
    ensures NonEmpty(parts, clean) == parts
  {
    if parts != [] {
      NonEmptyFixed(parts[1..], clean);
      assert parts == [parts[0]] + parts[1..];
    }
  }

  lemma {:induction false} NonEmptyNone(parts: seq<string>, clean: string -> string)
    requires forall p :: p in parts ==> clean(p) == ""
    ensures NonEmpty(parts, clean) == []
  {
    if parts != [] {
      NonEmptyNone(parts[1..], clean);
    }
  }

  lemma {:induction false} NonEmptyTwice(parts: seq<string>, clean: string -> string)
    requires forall p :: clean(clean(p)) == clean(p)
    ensures NonEmpty(NonEmpty(parts, clean), clean) == NonEmpty(parts, clean)
  {
    if parts != [] {
      NonEmptyTwice(parts[1..], clean);
      var c, rest := clean(parts[0]), NonEmpty(parts[1..], clean);
      if c == "" {
        assert NonEmpty(parts, clean) == rest;
      } else {
        NonEmptyOne(c, clean);
        NonEmptyAppend([c], rest, clean);
      }
    }
  }

  /** `value.split(",")`, stripped, without the blank parts. */
  function CommaParts(value: string): seq<string> {
    NonEmpty(Split(value, ','), Trim)
  }

  lemma {:induction false} NonEmptyAll(parts: seq<string>, clean: string -> string, good: string -> bool)
    requires forall p :: p in parts && clean(p) != "" ==> good(clean(p))
    ensures forall c :: c in NonEmpty(parts, clean) ==> good(c)
  {
    if parts != [] {
      NonEmptyAll(parts[1..], clean, good);
    }
  }

  lemma CommaPartsClean(value: string)
    ensures forall c :: c in CommaParts(value) ==> c != "" && Trimmed(c) && Free(c, ',')
  {
    var good := (c: string) => c != "" && Trimmed(c) && Free(c, ',');
    SplitParts(value, ',');
    forall p | p in Split(value, ',') && Trim(p) != "" ensures good(Trim(p)) {
      TrimFixes(p);
    }
    NonEmptyAll(Split(value, ','), Trim, good);
  }
}
