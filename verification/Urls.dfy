/** URLs as far as the settings need them: the HTTP part of `urllib.parse.urlparse`, the URL
    setting and the list of CORS origins. */
module Urls {
  import opened Text
  import opened AddressLists

  const MARK := "://"

  predicate IsDropped(c: char) {
    c == '\t' || c == '\r' || c == '\n'
  }

  predicate IsControl(c: char) {
    c as int <= 0x20
  }

  predicate IsDelimiter(c: char) {
    c == '/' || c == '?' || c == '#'
  }

  predicate IsSlash(c: char) {
    c == '/'
  }

  predicate IsColon(c: char) {
    c == ':'
  }

  function Without(s: string, p: char -> bool): string {
    if s == "" then "" else (if p(s[0]) then "" else [s[0]]) + Without(s[1..], p)
  }

  /** The parser first strips leading control characters and drops tabs and line breaks. */
  function Clean(s: string): string {
    Without(DropWhile(s, IsControl), IsDropped)
  }

  /** The scheme as written, the network location, and what follows it. */
  datatype Http = Http(scheme: string, netloc: string, rest: string)

  predicate IsHttpScheme(s: string) {
    s == "http" || s == "https"
  }

  /** A cleaned URL with an HTTP scheme and a non-empty location, else nothing. */
  function ParseHttp(s: string): Option<Http> {
    var scheme := Token(s, IsColon);
    var tail := s[|scheme|..];
    if !IsHttpScheme(Lower(scheme)) || !StartsWith(tail, MARK) then None
    else
      var netloc := Token(tail[3..], IsDelimiter);
      if netloc == "" then None else Some(Http(scheme, netloc, tail[3 + |netloc|..]))
  }

  /** A valid HTTP URL; `hostOk` is the library's check of brackets and characters in the location. */
  function HttpUrl(hostOk: string -> bool, s: string): Option<Http> {
    match ParseHttp(Clean(s))
    case Some(h) => if hostOk(h.netloc) then Some(h) else None
    case None => None
  }

  function StripSlashes(s: string): string {
    DropEndWhile(s, IsSlash)
  }

  /** A "url" setting. */
  function NormalizeUrl(hostOk: string -> bool, raw: string): Option<string> {
    if raw == "" then Some("")
    else if HttpUrl(hostOk, raw).None? then None
    else Some(StripSlashes(raw))
  }

  predicate IsHash(c: char) {
    c == '#'
  }

  predicate IsQuestion(c: char) {
    c == '?'
  }

  /** No path but "/", and no non-empty parameters, query or fragment. */
  predicate IsBare(rest: string) {
    var beforeFragment := Token(rest, IsHash);
    var path := Token(beforeFragment, IsQuestion);
    && |rest| <= |beforeFragment| + 1
    && |beforeFragment| <= |path| + 1
    && (path == "" || path == "/" || path == "/;")
  }

  function Origin(h: Http): string {
    Lower(h.scheme) + MARK + h.netloc
  }

  /** The origin one list entry stands for. */
  function OriginOf(hostOk: string -> bool, candidate: string): Option<string> {
    match HttpUrl(hostOk, candidate)
    case Some(h) => if IsBare(h.rest) then Some(Origin(h)) else None
    case None => None
  }

  /** `_normalize_cors_origins`. */
  function NormalizeCors(hostOk: string -> bool, raw: string): Option<string> {
    match Canonical(CommaParts(raw), c => OriginOf(hostOk, c))
    case Ok(origins) => if origins == [] then None else Some(Join(origins, ','))
    case Err => None
  }

  /** The loop of `_normalize_cors_origins`. */
  method NormalizeCorsOrigins(hostOk: string -> bool, raw: string) returns (r: Option<string>)
    ensures r == NormalizeCors(hostOk, raw)
  {
    var origins := CollectOrigins(Split(raw, ','), Trim, c => OriginOf(hostOk, c));
    if origins.Err? || origins.value == [] {
      return None;
    }
    r := Some(Join(origins.value, ','));
  }

  method CollectOrigins(parts: seq<string>, clean: string -> string, rewrite: string -> Option<string>)
    returns (r: Result<seq<string>>)
    ensures r == Canonical(NonEmpty(parts, clean), rewrite)
  {
    var origins: seq<string> := [];
    ghost var done: seq<string> := [];
    for i := 0 to |parts|
      invariant done == NonEmpty(parts[..i], clean) && Canonical(done, rewrite) == Ok(origins)
    {
      var candidate := clean(parts[i]);
      NonEmptyStep(parts, i, clean);
      if candidate == "" {
        continue;
      }
      CanonicalSnoc(done, candidate, rewrite);
      done := done + [candidate];
      var origin := rewrite(candidate);
      if origin.None? {
        CanonicalFails(done, NonEmpty(parts[i + 1..], clean), rewrite);
        return Err;
      }
      if origin.value !in origins {
        origins := origins + [origin.value];
      }
    }
    assert parts[..|parts|] == parts;
    r := Ok(origins);
  }

  // ----- parsing -----

  lemma CutTwice<T>(s: seq<T>, i: nat, j: nat)
    requires i + j <= |s|
    ensures s[i..][j..] == s[i + j..]
    ensures s == s[..i] + s[i..]
    ensures s[i..] == s[i..][..j] + s[i + j..]
  {
  }

  predicate IsSplit(head: string, tail: string, stop: char -> bool) {
    && (forall i :: 0 <= i < |head| ==> !stop(head[i]))
    && (tail != "" ==> stop(tail[0]))
  }

  /** Cutting at the first separator is the only split there is. */
  lemma TokenIffSplit(s: string, head: string, tail: string, stop: char -> bool)
    requires s == head + tail && IsSplit(head, tail, stop)
    ensures Token(s, stop) == head && s[|head|..] == tail
  {
    TokenStops(head, tail, stop);
  }

  lemma TokenSplits(s: string, stop: char -> bool)
    ensures IsSplit(Token(s, stop), s[|Token(s, stop)|..], stop)
    ensures s == Token(s, stop) + s[|Token(s, stop)|..]
  {
  }

  ghost predicate IsHttp(s: string, h: Http) {
    && s == h.scheme + MARK + (h.netloc + h.rest)
    && IsHttpScheme(Lower(h.scheme)) && h.netloc != ""
    && IsSplit(h.scheme, MARK + (h.netloc + h.rest), IsColon)
    && IsSplit(h.netloc, h.rest, IsDelimiter)
  }

  /** The parse is the only way to read a string as scheme, mark, location and rest. */
  lemma ParseHttpIff(s: string, h: Http)
    ensures ParseHttp(s) == Some(h) <==> IsHttp(s, h)
  {
    if IsHttp(s, h) {
      ParseHttpOf(s, h);
    }
    if ParseHttp(s) == Some(h) {
      ParseHttpParts(s, h);
    }
  }

  lemma ParseHttpParts(s: string, h: Http)
    requires ParseHttp(s) == Some(h)
    ensures IsHttp(s, h)
  {
    var tail := s[|h.scheme|..];
    TokenSplits(s, IsColon);
    TokenSplits(tail[3..], IsDelimiter);
    CutTwice(tail, 3, |h.netloc|);
    assert tail == MARK + tail[3..];
    Concat3(h.scheme, MARK, tail[3..]);
  }

  lemma ParseHttpOf(s: string, h: Http)
    requires IsHttp(s, h)
    ensures ParseHttp(s) == Some(h)
  {
    var tail := MARK + (h.netloc + h.rest);
    Concat3(h.scheme, MARK, h.netloc + h.rest);
    TokenIffSplit(s, h.scheme, tail, IsColon);
    TokenIffSplit(h.netloc + h.rest, h.netloc, h.rest, IsDelimiter);
    CutTwice(tail, 3, |h.netloc|);
  }

  lemma {:induction false} WithoutAppend(a: string, b: string, p: char -> bool)
    ensures Without(a + b, p) == Without(a, p) + Without(b, p)
  {
    if a == "" {
      assert a + b == b;
    } else {
      WithoutAppend(a[1..], b, p);
      ConsAppend(a, b);
      Concat3(if p(a[0]) then "" else [a[0]], Without(a[1..], p), Without(b, p));
    }
  }

  lemma {:induction false} WithoutNone(s: string, p: char -> bool)
    requires forall i :: 0 <= i < |s| ==> !p(s[i])
    ensures Without(s, p) == s
  {
    if s != "" {
      WithoutNone(s[1..], p);
      ConsAppend(s, "");
    }
  }

  lemma {:induction false} DropWhileAppend(a: string, b: string, p: char -> bool)
    requires b != "" ==> !p(b[0])
    ensures DropWhile(a + b, p) == DropWhile(a, p) + b
  {
    if a == "" {
      assert a + b == b;
      assert DropWhile(b, p) == b;
    } else {
      ConsAppend(a, b);
      if p(a[0]) {
        DropWhileAppend(a[1..], b, p);
      }
    }
  }

  predicate AllSlashes(s: string) {
    forall i :: 0 <= i < |s| ==> s[i] == '/'
  }

  lemma CleanSlashes(s: string, slashes: string)
    requires AllSlashes(slashes)
    ensures Clean(s + slashes) == Clean(s) + slashes
  {
    DropWhileAppend(s, slashes, IsControl);
    WithoutAppend(DropWhile(s, IsControl), slashes, IsDropped);
    WithoutNone(slashes, IsDropped);
  }

  lemma NetlocInFront(front: string, rest: string, s: string, slashes: string)
    requires front + rest == s + slashes && AllSlashes(slashes)
    requires front != "" && front[|front| - 1] != '/'
    ensures |front| <= |s| && s == front + s[|front|..]
    ensures s[|front|..] != "" ==> rest != "" && s[|front|..][0] == rest[0]
  {
    var all := front + rest;
    assert all[|front| - 1] == front[|front| - 1];
    assert forall i :: |s| <= i < |all| ==> (s + slashes)[i] == '/';
    assert |front| <= |s|;
    assert s == all[..|s|];
    assert all[..|front|] == front;
    if |s| > |front| {
      assert s[|front|] == all[|front|] == rest[0];
    }
  }

  /** Trailing slashes do not matter for being an HTTP URL. */
  lemma SlashesIgnored(s: string, slashes: string)
    requires AllSlashes(slashes) && ParseHttp(s + slashes).Some?
    ensures ParseHttp(s).Some?
    ensures ParseHttp(s).value.scheme == ParseHttp(s + slashes).value.scheme
    ensures ParseHttp(s).value.netloc == ParseHttp(s + slashes).value.netloc
  {
    var h := ParseHttp(s + slashes).value;
    ParseHttpParts(s + slashes, h);
    var front := h.scheme + MARK + h.netloc;
    Concat3(h.scheme + MARK, h.netloc, h.rest);
    assert front[|front| - 1] == h.netloc[|h.netloc| - 1];
    NetlocInFront(front, h.rest, s, slashes);
    var rest := s[|front|..];
    Concat3(h.scheme + MARK, h.netloc, rest);
    ParseHttpOf(s, Http(h.scheme, h.netloc, rest));
  }

  lemma StripSplits(s: string)
    ensures AllSlashes(s[|StripSlashes(s)|..])
    ensures s == StripSlashes(s) + s[|StripSlashes(s)|..]
  {
    var t := StripSlashes(s);
    forall i | 0 <= i < |s[|t|..]| ensures s[|t|..][i] == '/' {
      assert s[|t|..][i] == s[|t| + i];
      assert IsSlash(s[|t| + i]);
    }
  }

  lemma StripOnce(s: string)
    ensures StripSlashes(StripSlashes(s)) == StripSlashes(s)
  {
  }

  predicate OnlySlashesAfter(s: string, i: nat) {
    forall j :: i < j < |s| ==> s[j] == '/'
  }

  /** No blank with nothing but slashes after it. */
  predicate NoBlankBeforeSlashes(s: string) {
    forall i: nat :: i < |s| && OnlySlashesAfter(s, i) ==> !IsSpace(s[i])
  }

  lemma StripTrimmedIff(s: string)
    requires Trimmed(s)
    ensures Trimmed(StripSlashes(s)) <==> NoBlankBeforeSlashes(s)
  {
    var u := StripSlashes(s);
    if u != "" {
      assert u[0] == s[0] && u[|u| - 1] == s[|u| - 1];
      assert OnlySlashesAfter(s, |u| - 1);
    }
  }

  /** Normalizing a URL setting twice gives the same as once exactly when the written URL has no blank
      before its trailing slashes. */
  lemma UrlTwiceIff(hostOk: string -> bool, value: string)
    requires NormalizeUrl(hostOk, Trim(value)).Some?
    ensures var u := NormalizeUrl(hostOk, Trim(value)).value;
      NormalizeUrl(hostOk, Trim(u)) == Some(u) <==> NoBlankBeforeSlashes(Trim(value))
  {
    TrimFixes(value);
    if Trim(value) != "" {
      StripTrimmedIff(Trim(value));
      TrimmedTwiceIff(hostOk, Trim(value));
    }
  }

  lemma UrlShrinks(hostOk: string -> bool, raw: string)
    ensures NormalizeUrl(hostOk, raw).Some? ==> |NormalizeUrl(hostOk, raw).value| <= |raw|
  {
  }

  lemma TrimShrinks(s: string)
    ensures Trim(s) != s ==> |Trim(s)| < |s|
  {
  }

  lemma TrimmedTwiceIff(hostOk: string -> bool, raw: string)
    requires HttpUrl(hostOk, raw).Some?
    ensures NormalizeUrl(hostOk, Trim(StripSlashes(raw))) == Some(StripSlashes(raw)) <==> Trimmed(StripSlashes(raw))
  {
    hide Clean, ParseHttp, Trim, Trimmed;
    var u := StripSlashes(raw);
    var t := Trim(u);
    TrimFixes(u);
    if t == u {
      UrlStripped(hostOk, raw);
      StripOnce(raw);
    } else {
      TrimShrinks(u);
      UrlShrinks(hostOk, t);
    }
  }

  lemma HttpNotEmpty(s: string)
    requires ParseHttp(Clean(s)).Some?
    ensures s != ""
  {
    hide ParseHttp, DropWhile, Without;
    var c, h := Clean(s), ParseHttp(Clean(s)).value;
    ParseHttpParts(c, h);
    assert |c| == |h.scheme| + 3 + |h.netloc| + |h.rest|;
    assert c[0] in c;
    WithoutSubset(DropWhile(s, IsControl), IsDropped);
  }

  lemma UrlStripped(hostOk: string -> bool, raw: string)
    requires HttpUrl(hostOk, raw).Some?
    ensures StripSlashes(raw) != "" && HttpUrl(hostOk, StripSlashes(raw)).Some?
  {
    hide Clean, ParseHttp, AllSlashes;
    var u := StripSlashes(raw);
    var slashes := raw[|u|..];
    StripSplits(raw);
    CleanSlashes(u, slashes);
    SlashesIgnored(Clean(u), slashes);
    HttpNotEmpty(u);
  }

  // ----- origins -----

  lemma {:induction false} WithoutChars(s: string, p: char -> bool)
    ensures forall i :: 0 <= i < |Without(s, p)| ==> !p(Without(s, p)[i])
    ensures s != "" && !p(s[0]) ==> Without(s, p) != "" && Without(s, p)[0] == s[0]
  {
    if s != "" {
      WithoutChars(s[1..], p);
    }
  }

  /** Cleaning output is clean. */
  lemma CleanIsClean(s: string)
    ensures forall i :: 0 <= i < |Clean(s)| ==> !IsDropped(Clean(s)[i])
    ensures Clean(s) != "" ==> !IsControl(Clean(s)[0])
    ensures IsTidy(Clean(s))
  {
    var d := DropWhile(s, IsControl);
    WithoutChars(d, IsDropped);
    if d != "" {
      assert !IsControl(d[0]);
      assert !IsDropped(d[0]);
    }
  }

  predicate IsTidy(s: string) {
    && (forall i :: 0 <= i < |s| ==> !IsDropped(s[i]))
    && (s != "" ==> !IsControl(s[0]))
  }

  lemma TidyIsFixed(s: string)
    requires IsTidy(s)
    ensures Clean(s) == s
  {
    WithoutNone(s, IsDropped);
  }

  lemma SchemeLowered(scheme: string)
    requires IsHttpScheme(Lower(scheme))
    ensures Lower(Lower(scheme)) == Lower(scheme)
    ensures forall c :: c in Lower(scheme) ==> c in "htps"
  {
    LowerIdempotent(scheme);
  }

  lemma OriginTidy(h: Http)
    requires IsHttpScheme(Lower(h.scheme))
    requires forall i :: 0 <= i < |h.netloc| ==> !IsDropped(h.netloc[i])
    ensures IsTidy(Origin(h))
  {
    var o, scheme := Origin(h), Lower(h.scheme);
    forall i | 0 <= i < |o| ensures !IsDropped(o[i]) {
      if |scheme| + 3 <= i {
        assert o[i] == h.netloc[i - |scheme| - 3];
      } else if |scheme| <= i {
        assert o[i] == MARK[i - |scheme|];
      } else {
        assert o[i] == scheme[i];
      }
    }
  }

  lemma OriginParses(h: Http)
    requires IsHttpScheme(Lower(h.scheme)) && h.netloc != ""
    requires IsSplit(h.netloc, h.rest, IsDelimiter)
    ensures ParseHttp(Origin(h)) == Some(Http(Lower(h.scheme), h.netloc, ""))
  {
    SchemeLowered(h.scheme);
    assert h.netloc + "" == h.netloc;
    ParseHttpOf(Origin(h), Http(Lower(h.scheme), h.netloc, ""));
  }

  lemma NetlocTidy(s: string, h: Http)
    requires IsHttp(s, h) && IsTidy(s)
    ensures forall i :: 0 <= i < |h.netloc| ==> !IsDropped(h.netloc[i])
  {
    forall i | 0 <= i < |h.netloc| ensures !IsDropped(h.netloc[i]) {
      assert s[|h.scheme| + 3 + i] == h.netloc[i];
    }
  }

  lemma ParsedOrigin(c: string, h: Http)
    requires IsTidy(c) && ParseHttp(c) == Some(h)
    ensures Clean(Origin(h)) == Origin(h)
    ensures ParseHttp(Origin(h)) == Some(Http(Lower(h.scheme), h.netloc, ""))
    ensures Lower(Lower(h.scheme)) == Lower(h.scheme)
  {
    ParseHttpParts(c, h);
    NetlocTidy(c, h);
    OriginTidy(h);
    TidyIsFixed(Origin(h));
    OriginParses(h);
    SchemeLowered(h.scheme);
  }

  lemma OriginShape(hostOk: string -> bool, c: string)
    ensures OriginOf(hostOk, c).Some? <==>
      && ParseHttp(Clean(c)).Some? && hostOk(ParseHttp(Clean(c)).value.netloc) && IsBare(ParseHttp(Clean(c)).value.rest)
    ensures OriginOf(hostOk, c).Some? ==> OriginOf(hostOk, c).value == Origin(ParseHttp(Clean(c)).value)
  {
  }

  /** An origin is its own origin: only blanks at its end can change it later. */
  lemma OriginAgain(hostOk: string -> bool, candidate: string)
    requires OriginOf(hostOk, candidate).Some?
    ensures var o := OriginOf(hostOk, candidate).value;
      && OriginOf(hostOk, o) == Some(o)
      && Clean(o) == o
      && ParseHttp(o).Some? && ParseHttp(o).value.rest == ""
      && Lower(ParseHttp(o).value.scheme) == ParseHttp(o).value.scheme
  {
    OriginShape(hostOk, candidate);
    CleanIsClean(candidate);
    var h := ParseHttp(Clean(candidate)).value;
    ParsedOrigin(Clean(candidate), h);
    BareEmpty();
    OriginShape(hostOk, Origin(h));
  }

  lemma BareEmpty()
    ensures IsBare("")
  {
  }

  /** Scheme, mark and location as the parser leaves them, and nothing after the location, which may
      end in a blank. */
  predicate WrittenOrigin(hostOk: string -> bool, u: string) {
    && Free(u, ',') && Clean(u) == u
    && HttpUrl(hostOk, u).Some?
    && HttpUrl(hostOk, u).value.rest == ""
    && Lower(HttpUrl(hostOk, u).value.scheme) == HttpUrl(hostOk, u).value.scheme
  }

  /** What a frontend URL must be for the CORS origin derived from it to be the same text. */
  predicate PlainOrigin(hostOk: string -> bool, u: string) {
    Trimmed(u) && WrittenOrigin(hostOk, u)
  }

  lemma WrittenIffOwnOrigin(hostOk: string -> bool, u: string)
    requires Free(u, ',')
    ensures OriginOf(hostOk, u) == Some(u) <==> WrittenOrigin(hostOk, u)
  {
    if WrittenOrigin(hostOk, u) {
      var h := HttpUrl(hostOk, u).value;
      ParseHttpParts(u, h);
      assert h.netloc + "" == h.netloc;
      assert Origin(h) == u;
      BareEmpty();
    }
    if OriginOf(hostOk, u) == Some(u) {
      OriginAgain(hostOk, u);
    }
  }

  lemma CandidatesOfOne(u: string)
    requires Trimmed(u) && Free(u, ',') && u != ""
    ensures CommaParts(u) == [u]
  {
    SplitParts(u, ',');
    TrimFixes(u);
    NonEmptyOne(u, Trim);
  }

  lemma CanonicalOne(x: string, rewrite: string -> Option<string>)
    ensures Canonical([x], rewrite) == if rewrite(x).Some? then Ok([rewrite(x).value]) else Err
  {
    assert Canonical([], rewrite) == Ok([]);
    hide Canonical;
    CanonicalSnoc([], x, rewrite);
    assert [] + [x] == [x];
  }

  /** The same for one trimmed URL without commas. */
  lemma CorsCopiesIffPlain(hostOk: string -> bool, u: string)
    requires Trimmed(u) && Free(u, ',') && u != ""
    ensures NormalizeCors(hostOk, u) == Some(u) <==> PlainOrigin(hostOk, u)
  {
    hide NormalizeCors, PlainOrigin, Trimmed, Split;
    SplitParts(u, ',');
    assert Distinct([u]);
    CorsCopiesIff(hostOk, u);
  }

  lemma FreeAppend(a: string, b: string, sep: char)
    ensures Free(a + b, sep) <==> Free(a, sep) && Free(b, sep)
  {
    assert forall c :: c in a + b <==> c in a || c in b;
  }

  lemma OriginFreeIff(h: Http)
    requires IsHttpScheme(Lower(h.scheme))
    ensures Free(Origin(h), ',') <==> Free(h.netloc, ',')
  {
    FreeAppend(Lower(h.scheme), MARK, ',');
    FreeAppend(Lower(h.scheme) + MARK, h.netloc, ',');
  }

  predicate IsPlainHost(netloc: string) {
    && netloc != "" && Free(netloc, ',')
    && forall i :: 0 <= i < |netloc| ==>
      !IsControl(netloc[i]) && !IsSpace(netloc[i]) && !IsDelimiter(netloc[i])
  }

  lemma OriginTrimmed(h: Http)
    requires IsHttpScheme(Lower(h.scheme)) && IsPlainHost(h.netloc)
    ensures Trimmed(Origin(h)) && Origin(h) != ""
  {
    var o := Origin(h);
    assert o[|o| - 1] == h.netloc[|h.netloc| - 1];
    assert o[0] == Lower(h.scheme)[0];
  }

  /** Scheme, mark and host, written plainly, is a plain origin. */
  lemma PlainOriginText(hostOk: string -> bool, scheme: string, netloc: string)
    requires IsHttpScheme(scheme) && IsPlainHost(netloc) && hostOk(netloc)
    ensures PlainOrigin(hostOk, scheme + MARK + netloc)
  {
    hide Clean, ParseHttp, Trimmed, Free, IsTidy;
    var h := Http(scheme, netloc, "");
    OriginTidy(h);
    TidyIsFixed(Origin(h));
    OriginParses(h);
    OriginTrimmed(h);
    OriginFreeIff(h);
  }

  lemma NoSlashToStrip(s: string)
    requires s != "" && s[|s| - 1] != '/'
    ensures StripSlashes(s) == s
  {
  }

  lemma HttpEnd(u: string, h: Http)
    requires ParseHttp(u) == Some(h) && h.rest == ""
    ensures u != "" && u[|u| - 1] != '/'
  {
    ParseHttpParts(u, h);
    assert u[|u| - 1] == h.netloc[|h.netloc| - 1];
    assert !IsDelimiter(h.netloc[|h.netloc| - 1]);
  }

  /** A plain origin is a fixed point of both settings it is stored under. */
  lemma PlainIsFixed(hostOk: string -> bool, u: string)
    requires PlainOrigin(hostOk, u)
    ensures NormalizeUrl(hostOk, u) == Some(u) && NormalizeCors(hostOk, u) == Some(u)
    ensures u != "" && Trim(u) == u && StripSlashes(u) == u
  {
    HttpEnd(u, HttpUrl(hostOk, u).value);
    NoSlashToStrip(u);
    TrimFixes(u);
    CorsCopiesIffPlain(hostOk, u);
  }

  /** Slashes after a bare URL are its rest. */
  lemma SlashesAdded(hostOk: string -> bool, u: string, slashes: string)
    requires HttpUrl(hostOk, u).Some? && HttpUrl(hostOk, u).value.rest == "" && AllSlashes(slashes)
    ensures HttpUrl(hostOk, u + slashes) == Some(HttpUrl(hostOk, u).value.(rest := slashes))
  {
    hide Clean, ParseHttp;
    var h := HttpUrl(hostOk, u).value;
    ParseHttpParts(Clean(u), h);
    assert h.netloc + "" == h.netloc;
    CleanSlashes(u, slashes);
    Concat3(h.scheme + MARK, h.netloc, slashes);
    ParseHttpOf(Clean(u) + slashes, Http(h.scheme, h.netloc, slashes));
  }

  /** A plain origin may be submitted with slashes after it. */
  lemma PlainAfterStrip(hostOk: string -> bool, raw: string)
    requires PlainOrigin(hostOk, StripSlashes(raw))
    ensures NormalizeUrl(hostOk, raw) == Some(StripSlashes(raw))
  {
    StripSplits(raw);
    SlashesAdded(hostOk, StripSlashes(raw), raw[|StripSlashes(raw)|..]);
    PlainIsFixed(hostOk, StripSlashes(raw));
  }

  /** A scheme with capitals is accepted, and its origin is another text. */
  lemma CapitalScheme(hostOk: string -> bool, scheme: string, netloc: string)
    requires IsHttpScheme(Lower(scheme)) && Lower(scheme) != scheme
    requires IsPlainHost(netloc) && hostOk(netloc)
    ensures var u := scheme + MARK + netloc;
      && Trim(u) == u && StripSlashes(u) == u && Free(u, ',')
      && NormalizeUrl(hostOk, u) == Some(u)
      && NormalizeCors(hostOk, u) == Some(Lower(scheme) + MARK + netloc)
      && Lower(scheme) + MARK + netloc != u
  {
    hide NormalizeUrl, NormalizeCors, StripSlashes, Trim, Trimmed, Clean, ParseHttp, IsHttpScheme, IsPlainHost;
    var u, h := scheme + MARK + netloc, Http(scheme, netloc, "");
    CapitalText(h);
    TidyIsFixed(u);
    CapitalUrl(hostOk, u, h);
    CapitalOrigin(hostOk, u, h);
    DifferentFronts(scheme, Lower(scheme), MARK + netloc);
    Concat3(scheme, MARK, netloc);
    Concat3(Lower(scheme), MARK, netloc);
  }

  lemma DifferentFronts(a: string, b: string, tail: string)
    requires |a| == |b| && a != b
    ensures a + tail != b + tail
  {
    assert (a + tail)[..|a|] == a && (b + tail)[..|b|] == b;
  }

  lemma CapitalUrl(hostOk: string -> bool, u: string, h: Http)
    requires ParseHttp(u) == Some(h) && h.rest == "" && hostOk(h.netloc)
    requires Clean(u) == u && u != "" && Trimmed(u)
    ensures Trim(u) == u && StripSlashes(u) == u && NormalizeUrl(hostOk, u) == Some(u)
  {
    hide Trim, Trimmed, Clean, ParseHttp;
    TrimFixes(u);
    HttpEnd(u, h);
    NoSlashToStrip(u);
  }

  lemma CapitalOrigin(hostOk: string -> bool, u: string, h: Http)
    requires ParseHttp(u) == Some(h) && h.rest == "" && hostOk(h.netloc)
    requires Clean(u) == u && u != "" && Trimmed(u) && Free(u, ',')
    ensures NormalizeCors(hostOk, u) == Some(Origin(h))
  {
    CandidatesOfOne(u);
    CanonicalOne(u, c => OriginOf(hostOk, c));
    BareEmpty();
  }

  /** A string whose lower-case form is an HTTP scheme consists of letters. */
  lemma SchemeChars(scheme: string, lower: string)
    requires IsHttpScheme(lower) && |scheme| == |lower|
    requires forall i :: 0 <= i < |scheme| ==> lower[i] == LowerChar(scheme[i])
    ensures scheme != "" && forall i :: 0 <= i < |scheme| ==> IsLetter(scheme[i])
  {
    assert forall i :: 0 <= i < |lower| ==> IsLetter(lower[i]);
  }

  predicate IsSolid(c: char) {
    !IsDropped(c) && !IsControl(c) && c != ','
  }

  lemma CapitalText(h: Http)
    requires IsHttpScheme(Lower(h.scheme)) && IsPlainHost(h.netloc) && h.rest == ""
    ensures var u := h.scheme + MARK + h.netloc;
      && u != "" && Trimmed(u) && Free(u, ',') && IsTidy(u) && ParseHttp(u) == Some(h)
  {
    hide ParseHttp, Clean;
    var u := h.scheme + MARK + h.netloc;
    SchemeChars(h.scheme, Lower(h.scheme));
    assert u[0] == h.scheme[0] && u[|u| - 1] == h.netloc[|h.netloc| - 1];
    assert h.netloc + "" == h.netloc;
    ParseHttpOf(u, h);
  }

  // ----- normalizing a list twice -----

  lemma {:induction false} WithoutSubset(s: string, p: char -> bool)
    ensures forall c :: c in Without(s, p) ==> c in s
  {
    if s != "" {
      WithoutSubset(s[1..], p);
    }
  }

  /** No comma comes into an origin from nowhere. */
  lemma OriginFree(hostOk: string -> bool, candidate: string)
    requires OriginOf(hostOk, candidate).Some? && Free(candidate, ',')
    ensures Free(OriginOf(hostOk, candidate).value, ',')
  {
    var c := Clean(candidate);
    var h := ParseHttp(c).value;
    WithoutSubset(DropWhile(candidate, IsControl), IsDropped);
    ParseHttpParts(c, h);
    FreeAppend(h.scheme + MARK, h.netloc + h.rest, ',');
    FreeAppend(h.netloc, h.rest, ',');
    OriginFreeIff(h);
  }

  lemma FirstStopSame(s: string, k: nat, stop: char -> bool)
    requires k <= |s|
    requires |Token(s[..k], stop)| < k
    ensures Token(s[..k], stop) == Token(s, stop)
  {
    var head := Token(s[..k], stop);
    assert s[..k][|head|] == s[|head|];
    TokenIffSplit(s, head, s[|head|..], stop);
  }

  /** A URL cut short, but still a URL, keeps its scheme; with nothing after the location before
      the cut there is nothing after it either. */
  lemma CutUrl(o: string, k: nat)
    requires k <= |o| && ParseHttp(o).Some? && ParseHttp(o[..k]).Some?
    requires ParseHttp(o).value.rest == ""
    ensures ParseHttp(o[..k]).value.scheme == ParseHttp(o).value.scheme
    ensures ParseHttp(o[..k]).value.rest == ""
  {
    var t := o[..k];
    var whole, cut := ParseHttp(o).value, ParseHttp(t).value;
    ParseHttpParts(o, whole);
    ParseHttpParts(t, cut);
    FirstStopSame(o, k, IsColon);
    var start := |cut.scheme| + 3;
    forall i | start <= i < |o| ensures !IsDelimiter(o[i]) {
      assert o[i] == whole.netloc[i - start];
    }
    assert cut.rest == t[start + |cut.netloc|..];
    assert forall i :: start <= i < |t| ==> t[i] == o[i];
  }

  lemma TrimFront(s: string)
    requires s != "" && !IsSpace(s[0])
    ensures Trim(s) == s[..|Trim(s)|]
  {
  }

  /** Whatever the second pass makes of an origin carries no blanks at its ends. */
  lemma SecondOriginTrimmed(hostOk: string -> bool, o: string)
    requires OriginOf(hostOk, o) == Some(o) && OriginOf(hostOk, Trim(o)).Some?
    requires IsTidy(o) && ParseHttp(o).Some? && ParseHttp(o).value.rest == ""
    requires Lower(ParseHttp(o).value.scheme) == ParseHttp(o).value.scheme
    ensures OriginOf(hostOk, Trim(o)).value == Trim(o)
  {
    var t := Trim(o);
    OriginHead(hostOk, o);
    TrimFront(o);
    TidyPrefix(o, |t|);
    TidyIsFixed(t);
    CutOrigin(hostOk, o, t);
  }

  lemma TidyPrefix(s: string, k: nat)
    requires IsTidy(s) && k <= |s|
    ensures IsTidy(s[..k])
  {
  }

  lemma CutOrigin(hostOk: string -> bool, o: string, t: string)
    requires |t| <= |o| && t == o[..|t|] && Clean(t) == t && OriginOf(hostOk, t).Some?
    requires ParseHttp(o).Some? && ParseHttp(o).value.rest == ""
    requires Lower(ParseHttp(o).value.scheme) == ParseHttp(o).value.scheme
    ensures OriginOf(hostOk, t).value == t
  {
    CutUrl(o, |t|);
    LowerOrigin(hostOk, t);
  }

  lemma LowerOrigin(hostOk: string -> bool, t: string)
    requires Clean(t) == t && OriginOf(hostOk, t).Some? && ParseHttp(t).value.rest == ""
    requires Lower(ParseHttp(t).value.scheme) == ParseHttp(t).value.scheme
    ensures OriginOf(hostOk, t).value == t
  {
    var h := ParseHttp(t).value;
    ParseHttpParts(t, h);
    assert h.netloc + "" == h.netloc;
  }

  lemma OriginStart(h: Http)
    requires IsHttpScheme(Lower(h.scheme))
    ensures Origin(h) != "" && Origin(h)[0] == 'h'
  {
    assert Origin(h)[0] == Lower(h.scheme)[0];
  }

  lemma OriginHead(hostOk: string -> bool, o: string)
    requires OriginOf(hostOk, o) == Some(o)
    ensures o != "" && !IsSpace(o[0])
  {
    OriginShape(hostOk, o);
    var h := ParseHttp(Clean(o)).value;
    ParseHttpParts(Clean(o), h);
    OriginStart(h);
  }

  // ----- trimming a joined list -----

  lemma {:induction false} DropEndAppend(a: string, b: string, p: char -> bool)
    requires DropEndWhile(b, p) != ""
    ensures DropEndWhile(a + b, p) == a + DropEndWhile(b, p)
  {
    var s, n := a + b, |b| - 1;
    assert s[|s| - 1] == b[n];
    if p(b[n]) {
      assert s[..|s| - 1] == a + b[..n];
      DropEndAppend(a, b[..n], p);
    }
  }

  predicate StartsSolid(s: string) {
    s != "" && !IsSpace(s[0])
  }

  lemma TrimSolid(s: string)
    requires StartsSolid(s)
    ensures Trim(s) == DropEndWhile(s, IsSpace) && StartsSolid(Trim(s))
  {
    var t := Trim(s);
    TrimFixes(s);
    assert !Blank(s) by {
      assert !IsSpace(s[0]);
    }
    assert t[0] == s[0];
  }

  lemma TrimAfter(head: string, tail: string)
    requires StartsSolid(head) && StartsSolid(tail)
    ensures StartsSolid(head + ([','] + tail))
    ensures Trim(head + ([','] + tail)) == head + ([','] + Trim(tail))
  {
    TrimSolid(tail);
    TrimSolid(head + ([','] + tail));
    Concat3(head, [','], tail);
    DropEndAppend(head + [','], tail, IsSpace);
    Concat3(head, [','], Trim(tail));
  }

  lemma TrimLastCons(parts: seq<string>)
    requires |parts| > 1
    ensures |TrimLast(parts)| > 1 && TrimLast(parts)[0] == parts[0]
    ensures TrimLast(parts)[1..] == TrimLast(parts[1..])
  {
  }

  /** Trimming a joined list trims its last part. */
  lemma {:induction false} TrimJoin(parts: seq<string>)
    requires parts != []
    requires forall i :: 0 <= i < |parts| ==> StartsSolid(parts[i])
    ensures StartsSolid(Join(parts, ','))
    ensures Trim(Join(parts, ',')) == Join(TrimLast(parts), ',')
  {
    if |parts| > 1 {
      TrimJoin(parts[1..]);
      TrimAfter(parts[0], Join(parts[1..], ','));
      JoinCons(parts, ',');
      TrimLastCons(parts);
      JoinCons(TrimLast(parts), ',');
    }
  }

  lemma {:induction false} SameClean(a: seq<string>, b: seq<string>, clean: string -> string)
    requires |a| == |b|
    requires forall i :: 0 <= i < |a| ==> clean(a[i]) == clean(b[i])
    ensures NonEmpty(a, clean) == NonEmpty(b, clean)
  {
    if a != [] {
      SameClean(a[1..], b[1..], clean);
    }
  }

  lemma {:induction false} CleanEach(parts: seq<string>, clean: string -> string)
    requires forall i :: 0 <= i < |parts| ==> clean(parts[i]) != ""
    ensures |NonEmpty(parts, clean)| == |parts|
    ensures forall i :: 0 <= i < |parts| ==> NonEmpty(parts, clean)[i] == clean(parts[i])
  {
    if parts != [] {
      CleanEach(parts[1..], clean);
    }
  }

  // ----- normalizing a list of origins twice -----

  function Origins(hostOk: string -> bool, raw: string): Result<seq<string>> {
    Canonical(CommaParts(raw), c => OriginOf(hostOk, c))
  }

  predicate GoodOrigin(hostOk: string -> bool, o: string) {
    && StartsSolid(o) && Free(o, ',')
    && OriginOf(hostOk, o) == Some(o)
    && (OriginOf(hostOk, Trim(o)).Some? ==> OriginOf(hostOk, Trim(o)).value == Trim(o))
  }

  lemma OneGood(hostOk: string -> bool, c: string)
    requires OriginOf(hostOk, c).Some? && Free(c, ',')
    ensures GoodOrigin(hostOk, OriginOf(hostOk, c).value)
  {
    OriginAgain(hostOk, c);
    OriginHead(hostOk, OriginOf(hostOk, c).value);
    OriginFree(hostOk, c);
    var o := OriginOf(hostOk, c).value;
    CleanIsClean(o);
    if OriginOf(hostOk, Trim(o)).Some? {
      SecondOriginTrimmed(hostOk, o);
    }
  }

  lemma OriginsGood(hostOk: string -> bool, raw: string)
    requires Origins(hostOk, raw).Ok?
    ensures forall o :: o in Origins(hostOk, raw).value ==> GoodOrigin(hostOk, o)
    ensures Distinct(Origins(hostOk, raw).value)
  {
    var parts := CommaParts(raw);
    var rewrite := c => OriginOf(hostOk, c);
    var texts := RewriteAll(parts, rewrite).value;
    CommaPartsClean(raw);
    DedupeDistinct(texts);
    forall e | e in parts && rewrite(e).Some? ensures GoodOrigin(hostOk, rewrite(e).value) {
      OneGood(hostOk, e);
    }
    CanonicalAll(parts, rewrite, o => GoodOrigin(hostOk, o));
  }

  /** The stored list is a text exactly when the parts of that text are the origins. */
  lemma CorsIsIff(hostOk: string -> bool, w: string, u: string)
    ensures NormalizeCors(hostOk, w) == Some(u) <==> Origins(hostOk, w) == Ok(Split(u, ','))
  {
    SplitParts(u, ',');
    if NormalizeCors(hostOk, w) == Some(u) {
      var origins := Origins(hostOk, w).value;
      OriginsGood(hostOk, w);
      forall o | o in origins ensures Free(o, ',') {
        assert GoodOrigin(hostOk, o);
      }
      SplitJoin(origins, ',');
    }
  }

  lemma FreeJoinParts(parts: seq<string>)
    requires parts != []
    requires forall i :: 0 <= i < |parts| ==> Free(parts[i], ',')
    ensures CommaParts(Join(parts, ',')) == NonEmpty(parts, Trim)
  {
    forall p | p in parts ensures Free(p, ',') { }
    SplitJoin(parts, ',');
  }

  lemma TrimTwice(s: string)
    ensures Trim(Trim(s)) == Trim(s)
    ensures Free(s, ',') ==> Free(Trim(s), ',')
  {
    TrimFixes(s);
    TrimFixes(Trim(s));
  }

  /** The parts of a trimmed join are the trimmed parts. */
  lemma PartsOfJoined(parts: seq<string>)
    requires parts != []
    requires forall i :: 0 <= i < |parts| ==> StartsSolid(parts[i]) && Free(parts[i], ',')
    ensures CommaParts(Trim(Join(parts, ','))) == NonEmpty(parts, Trim)
  {
    TrimJoin(parts);
    TrimTwice(parts[|parts| - 1]);
    LastReplaced(parts, TrimLast(parts), Trim);
    FreeJoinParts(TrimLast(parts));
    SameClean(parts, TrimLast(parts), Trim);
  }

  function TrimLast(parts: seq<string>): seq<string>
    requires parts != []
  {
    parts[..|parts| - 1] + [Trim(parts[|parts| - 1])]
  }

  lemma LastReplaced(parts: seq<string>, cut: seq<string>, clean: string -> string)
    requires parts != [] && cut == parts[..|parts| - 1] + [clean(parts[|parts| - 1])]
    requires clean(clean(parts[|parts| - 1])) == clean(parts[|parts| - 1])
    requires Free(clean(parts[|parts| - 1]), ',')
    requires forall i :: 0 <= i < |parts| ==> Free(parts[i], ',')
    ensures |cut| == |parts|
    ensures forall i :: 0 <= i < |parts| ==> clean(parts[i]) == clean(cut[i])
    ensures forall i :: 0 <= i < |parts| ==> Free(cut[i], ',')
  {
  }

  lemma OriginsAgainIff(hostOk: string -> bool, origins: seq<string>)
    requires forall o :: o in origins ==> GoodOrigin(hostOk, o)
    requires Distinct(origins)
    ensures Canonical(NonEmpty(origins, Trim), c => OriginOf(hostOk, c)) == Ok(origins)
       <==> forall o :: o in origins ==> Trimmed(o)
  {
    var rewrite := c => OriginOf(hostOk, c);
    if forall o :: o in origins ==> Trimmed(o) {
      forall i | 0 <= i < |origins| ensures origins[i] != "" && Trim(origins[i]) == origins[i] {
        assert GoodOrigin(hostOk, origins[i]);
        TrimFixes(origins[i]);
      }
      NonEmptyFixed(origins, Trim);
      RewriteFixed(origins, rewrite);
      DedupeDistinct(origins);
    }
    if Canonical(NonEmpty(origins, Trim), rewrite) == Ok(origins) {
      SecondPassTrimmed(hostOk, origins);
    }
  }

  lemma SecondPassTrimmed(hostOk: string -> bool, origins: seq<string>)
    requires forall o :: o in origins ==> GoodOrigin(hostOk, o)
    requires Canonical(NonEmpty(origins, Trim), c => OriginOf(hostOk, c)) == Ok(origins)
    ensures forall o :: o in origins ==> Trimmed(o)
  {
    var rewrite := c => OriginOf(hostOk, c);
    var parts := NonEmpty(origins, Trim);
    forall i | 0 <= i < |origins| ensures Trim(origins[i]) != "" {
      assert GoodOrigin(hostOk, origins[i]);
      TrimSolid(origins[i]);
    }
    CleanEach(origins, Trim);
    forall e | e in parts && rewrite(e).Some? ensures Trimmed(rewrite(e).value) {
      var i :| 0 <= i < |parts| && parts[i] == e;
      assert GoodOrigin(hostOk, origins[i]);
      TrimFixes(origins[i]);
    }
    CanonicalAll(parts, rewrite, Trimmed);
  }

  /** The location an entry names does not end in a blank. */
  predicate EndsSolid(candidate: string) {
    var h := ParseHttp(Clean(candidate));
    h.Some? && h.value.netloc != "" ==> !IsSpace(h.value.netloc[|h.value.netloc| - 1])
  }

  lemma OriginTrimmedIff(hostOk: string -> bool, candidate: string)
    requires OriginOf(hostOk, candidate).Some?
    ensures Trimmed(OriginOf(hostOk, candidate).value) <==> EndsSolid(candidate)
  {
    hide Clean, ParseHttp, OriginOf;
    OriginShape(hostOk, candidate);
    var h := ParseHttp(Clean(candidate)).value;
    var o := Origin(h);
    ParseHttpParts(Clean(candidate), h);
    OriginStart(h);
    assert o[|o| - 1] == h.netloc[|h.netloc| - 1];
  }

  lemma OriginsTrimmedIff(hostOk: string -> bool, raw: string)
    requires Origins(hostOk, raw).Ok?
    ensures (forall o :: o in Origins(hostOk, raw).value ==> Trimmed(o))
       <==> (forall c :: c in CommaParts(raw) ==> EndsSolid(c))
  {
    var parts := CommaParts(raw);
    var rewrite := c => OriginOf(hostOk, c);
    var texts := RewriteAll(parts, rewrite).value;
    forall i | 0 <= i < |parts| ensures Trimmed(texts[i]) <==> EndsSolid(parts[i]) {
      assert rewrite(parts[i]) == Some(texts[i]);
      OriginTrimmedIff(hostOk, parts[i]);
    }
    assert forall o :: o in Dedupe(texts) <==> o in texts;
    SameEverywhere(texts, parts, Trimmed, EndsSolid);
  }

  lemma SameEverywhere(a: seq<string>, b: seq<string>, p: string -> bool, q: string -> bool)
    requires |a| == |b| && forall i :: 0 <= i < |a| ==> p(a[i]) == q(b[i])
    ensures (forall x :: x in a ==> p(x)) <==> (forall y :: y in b ==> q(y))
  {
    if forall x :: x in a ==> p(x) {
      forall y | y in b ensures q(y) {
        var i :| 0 <= i < |b| && b[i] == y;
        assert a[i] in a;
      }
    }
    if forall y :: y in b ==> q(y) {
      forall x | x in a ensures p(x) {
        var i :| 0 <= i < |a| && a[i] == x;
        assert b[i] in b;
      }
    }
  }

  /** Normalizing a CORS setting twice gives the same as once exactly when no written entry names a
      location that ends in a blank. */
  lemma CorsTwiceIff(hostOk: string -> bool, value: string)
    requires NormalizeCors(hostOk, Trim(value)).Some?
    ensures var r := NormalizeCors(hostOk, Trim(value)).value;
      && (NormalizeCors(hostOk, Trim(r)) == Some(r)
          <==> (forall c :: c in CommaParts(Trim(value)) ==> EndsSolid(c)))
  {
    OriginsTrimmedIff(hostOk, Trim(value));
    CorsTwiceIffTrimmed(hostOk, value);
  }

  lemma CorsTwiceIffTrimmed(hostOk: string -> bool, value: string)
    requires NormalizeCors(hostOk, Trim(value)).Some?
    ensures var r := NormalizeCors(hostOk, Trim(value)).value;
      && (NormalizeCors(hostOk, Trim(r)) == Some(r)
          <==> (forall o :: o in Origins(hostOk, Trim(value)).value ==> Trimmed(o)))
  {
    var raw := Trim(value);
    var origins := Origins(hostOk, raw).value;
    var r := Join(origins, ',');
    OriginsGood(hostOk, raw);
    forall i | 0 <= i < |origins| ensures StartsSolid(origins[i]) && Free(origins[i], ',') {
      assert GoodOrigin(hostOk, origins[i]);
    }
    PartsOfJoined(origins);
    OriginsAgainIff(hostOk, origins);
    SplitJoin(origins, ',');
    CorsIsIff(hostOk, Trim(r), r);
  }

  // ----- a list that is its own origins -----

  /** Plain origins, written once each, with nothing but commas between them. */
  predicate PlainList(hostOk: string -> bool, u: string) {
    Distinct(Split(u, ',')) && forall p :: p in Split(u, ',') ==> PlainOrigin(hostOk, p)
  }

  lemma OwnOriginsPlain(hostOk: string -> bool, u: string)
    requires NormalizeCors(hostOk, u) == Some(u)
    ensures PlainList(hostOk, u)
  {
    var origins := Split(u, ',');
    CorsIsIff(hostOk, u, u);
    OriginsGood(hostOk, u);
    SecondPassTrimmed(hostOk, origins);
    forall o | o in origins ensures PlainOrigin(hostOk, o) {
      assert GoodOrigin(hostOk, o);
      WrittenIffOwnOrigin(hostOk, o);
    }
  }

  lemma PlainOwnOrigins(hostOk: string -> bool, u: string)
    requires PlainList(hostOk, u)
    ensures NormalizeCors(hostOk, u) == Some(u)
  {
    hide Trim, Clean, ParseHttp, Trimmed;
    var parts := Split(u, ',');
    var rewrite := c => OriginOf(hostOk, c);
    SplitParts(u, ',');
    forall p | p in parts ensures p != "" && Trim(p) == p && rewrite(p) == Some(p) {
      assert PlainOrigin(hostOk, p);
      HttpEnd(p, HttpUrl(hostOk, p).value);
      TrimFixes(p);
      WrittenIffOwnOrigin(hostOk, p);
    }
    forall i | 0 <= i < |parts| ensures parts[i] != "" && Trim(parts[i]) == parts[i] {
      assert parts[i] in parts;
    }
    NonEmptyFixed(parts, Trim);
    RewriteFixed(parts, rewrite);
    DedupeDistinct(parts);
  }

  /** Deriving CORS origins from a text gives the text itself back exactly when it is a list of
      distinct plain origins. */
  lemma CorsCopiesIff(hostOk: string -> bool, u: string)
    ensures NormalizeCors(hostOk, u) == Some(u) <==> PlainList(hostOk, u)
  {
    if NormalizeCors(hostOk, u) == Some(u) {
      OwnOriginsPlain(hostOk, u);
    }
    if PlainList(hostOk, u) {
      PlainOwnOrigins(hostOk, u);
    }
  }

  // ----- a list that is its own origins but for a slash -----

  /** Distinct origins with nothing but commas between them; only the last may end in blanks, and one
      slash may follow it. */
  predicate PlainBeforeSlash(hostOk: string -> bool, w: string) {
    var u := StripSlashes(w);
    && |w| <= |u| + 1
    && PlainButEnd(hostOk, Split(u, ','))
  }

  predicate PlainButEnd(hostOk: string -> bool, origins: seq<string>)
    requires origins != []
  {
    && Distinct(origins)
    && (forall i :: 0 <= i < |origins| ==> WrittenOrigin(hostOk, origins[i]))
    && (forall i :: 0 <= i < |origins| - 1 ==> Trimmed(origins[i]))
  }

  function WithEnd(parts: seq<string>, tail: string): seq<string>
    requires parts != []
  {
    parts[..|parts| - 1] + [parts[|parts| - 1] + tail]
  }

  lemma WithEndCons(head: string, parts: seq<string>, tail: string)
    requires parts != []
    ensures WithEnd([head] + parts, tail) == [head] + WithEnd(parts, tail)
  {
    assert ([head] + parts)[..|parts|] == [head] + parts[..|parts| - 1];
    Concat3([head], parts[..|parts| - 1], [parts[|parts| - 1] + tail]);
  }

  lemma WithEndFirst(c: char, parts: seq<string>, tail: string)
    requires parts != []
    ensures WithEnd([[c] + parts[0]] + parts[1..], tail)
         == [[c] + WithEnd(parts, tail)[0]] + WithEnd(parts, tail)[1..]
  {
    var longer := [[c] + parts[0]] + parts[1..];
    if |parts| == 1 {
      Concat3([c], parts[0], tail);
    } else {
      assert longer[|longer| - 1] == parts[|parts| - 1];
    }
  }

  /** Text without separators goes to the last part. */
  lemma {:induction false} SplitEnd(s: string, tail: string, sep: char)
    requires Free(tail, sep)
    ensures Split(s + tail, sep) == WithEnd(Split(s, sep), tail)
  {
    if s == "" {
      assert s + tail == tail && "" + tail == tail;
      SplitParts(tail, sep);
    } else {
      SplitEnd(s[1..], tail, sep);
      ConsAppend(s, tail);
      SplitPrepends(s, sep);
      SplitPrepends(s + tail, sep);
      var rest := Split(s[1..], sep);
      if s[0] == sep {
        WithEndCons("", rest, tail);
      } else {
        WithEndFirst(s[0], rest, tail);
      }
    }
  }

  /** A path of slashes is bare when there is at most one. */
  lemma BareSlashes(slashes: string)
    requires AllSlashes(slashes)
    ensures IsBare(slashes) <==> |slashes| <= 1
  {
    assert slashes + "" == slashes;
    TokenIffSplit(slashes, slashes, "", IsHash);
    TokenIffSplit(slashes, slashes, "", IsQuestion);
    if |slashes| == 1 {
      assert slashes == "/";
    }
    assert |slashes| > 1 ==> slashes[1] == '/';
  }

  lemma OriginWithSlashes(hostOk: string -> bool, o: string, slashes: string)
    requires WrittenOrigin(hostOk, o) && AllSlashes(slashes)
    ensures OriginOf(hostOk, o + slashes) == if |slashes| <= 1 then Some(o) else None
  {
    hide ParseHttp, Clean, IsBare;
    SlashesAdded(hostOk, o, slashes);
    BareSlashes(slashes);
    WrittenIffOwnOrigin(hostOk, o);
  }

  lemma DedupeFull(s: seq<string>)
    requires |Dedupe(s)| == |s|
    ensures Dedupe(s) == s
  {
    if s != [] {
      DedupeFull(s[..|s| - 1]);
      assert s == s[..|s| - 1] + [s[|s| - 1]];
    }
  }

  lemma RewrittenEach(parts: seq<string>, texts: seq<string>, rewrite: string -> Option<string>)
    requires |parts| == |texts| && Distinct(texts)
    ensures Canonical(parts, rewrite) == Ok(texts)
       <==> forall i :: 0 <= i < |parts| ==> rewrite(parts[i]) == Some(texts[i])
  {
    DedupeDistinct(texts);
    if Canonical(parts, rewrite) == Ok(texts) {
      DedupeFull(RewriteAll(parts, rewrite).value);
    }
    if forall i :: 0 <= i < |parts| ==> rewrite(parts[i]) == Some(texts[i]) {
      assert RewriteAll(parts, rewrite).value == texts;
    }
  }

  /** One part, trimmed, has the origin it shows exactly when it carries no blanks and at most one
      slash. */
  lemma PartCopiedIff(hostOk: string -> bool, o: string, slashes: string)
    requires GoodOrigin(hostOk, o) && AllSlashes(slashes) && (slashes != "" ==> Trimmed(o + slashes))
    ensures OriginOf(hostOk, Trim(o + slashes)) == Some(o)
       <==> |slashes| <= 1 && Trimmed(o + slashes)
  {
    hide OriginOf, WrittenOrigin, Trim, Trimmed, StartsSolid;
    WrittenIffOwnOrigin(hostOk, o);
    TrimFixes(o + slashes);
    if slashes == "" {
      assert o + slashes == o;
    } else {
      OriginWithSlashes(hostOk, o, slashes);
    }
  }

  lemma EndsSame(parts: seq<string>, tail: string)
    requires parts != [] && forall i :: 0 <= i < |parts| ==> StartsSolid(parts[i])
    ensures |WithEnd(parts, tail)| == |parts|
    ensures forall i :: 0 <= i < |parts| ==> StartsSolid(WithEnd(parts, tail)[i])
    ensures forall i :: 0 <= i < |parts| ==>
              WithEnd(parts, tail)[i] == parts[i] + if i == |parts| - 1 then tail else ""
  {
  }

  lemma PartsCopiedIff(hostOk: string -> bool, origins: seq<string>, slashes: string)
    requires origins != [] && Distinct(origins) && AllSlashes(slashes)
    requires forall i :: 0 <= i < |origins| ==> GoodOrigin(hostOk, origins[i])
    requires Trimmed(origins[|origins| - 1] + slashes)
    ensures Canonical(NonEmpty(WithEnd(origins, slashes), Trim), c => OriginOf(hostOk, c)) == Ok(origins)
       <==> |slashes| <= 1 && forall i :: 0 <= i < |origins| - 1 ==> Trimmed(origins[i])
  {
    hide OriginOf, Trim, Trimmed, StartsSolid, Canonical, NonEmpty, WithEnd;
    var ends, rewrite := WithEnd(origins, slashes), c => OriginOf(hostOk, c);
    var parts := NonEmpty(ends, Trim);
    EndsSame(origins, slashes);
    forall i | 0 <= i < |ends| ensures Trim(ends[i]) != "" {
      TrimSolid(ends[i]);
    }
    CleanEach(ends, Trim);
    forall i | 0 <= i < |origins|
      ensures rewrite(parts[i]) == Some(origins[i])
         <==> if i == |origins| - 1 then |slashes| <= 1 else Trimmed(origins[i])
    {
      PartCopiedIff(hostOk, origins[i], if i == |origins| - 1 then slashes else "");
      assert origins[i] + "" == origins[i];
    }
    RewrittenEach(parts, origins, rewrite);
  }

  /** The text ends as its last part does. */
  lemma {:induction false} LastPartEnd(s: string, sep: char)
    ensures var parts := Split(s, sep);
      var last := parts[|parts| - 1];
      last != "" ==> s != "" && s[|s| - 1] == last[|last| - 1]
  {
    if s != "" {
      LastPartEnd(s[1..], sep);
      SplitPrepends(s, sep);
    }
  }

  lemma LastPartTrimmed(u: string, slashes: string)
    requires Trimmed(u + slashes) && AllSlashes(slashes)
    requires var parts := Split(u, ','); StartsSolid(parts[|parts| - 1])
    ensures var parts := Split(u, ','); Trimmed(parts[|parts| - 1] + slashes)
  {
    LastPartEnd(u, ',');
    var all := u + slashes;
    assert all[|all| - 1] == if slashes == "" then u[|u| - 1] else slashes[|slashes| - 1];
  }

  lemma PartsGood(hostOk: string -> bool, origins: seq<string>)
    requires origins != [] && PlainButEnd(hostOk, origins)
    ensures forall i :: 0 <= i < |origins| ==> GoodOrigin(hostOk, origins[i])
  {
    hide GoodOrigin;
    forall i | 0 <= i < |origins| ensures GoodOrigin(hostOk, origins[i]) {
      WrittenIffOwnOrigin(hostOk, origins[i]);
      OneGood(hostOk, origins[i]);
    }
  }

  lemma GoodParts(hostOk: string -> bool, origins: seq<string>)
    requires forall i :: 0 <= i < |origins| ==> GoodOrigin(hostOk, origins[i])
    ensures forall i :: 0 <= i < |origins| ==> StartsSolid(origins[i]) && WrittenOrigin(hostOk, origins[i])
  {
    hide WrittenOrigin;
    forall i | 0 <= i < |origins| ensures StartsSolid(origins[i]) && WrittenOrigin(hostOk, origins[i]) {
      WrittenIffOwnOrigin(hostOk, origins[i]);
    }
  }

  /** Deriving CORS origins from a text that may end in slashes gives the text without them exactly
      when it is a list of distinct origins of which only the last is followed by blanks or a slash. */
  lemma CorsCopiesStrippedIff(hostOk: string -> bool, w: string)
    requires Trimmed(w)
    ensures NormalizeCors(hostOk, w) == Some(StripSlashes(w)) <==> PlainBeforeSlash(hostOk, w)
  {
    hide NormalizeCors, StripSlashes, Trimmed, GoodOrigin, WrittenOrigin, StartsSolid, Canonical;
    hide Split, WithEnd, NonEmpty, Trim, OriginOf;
    var u := StripSlashes(w);
    StripSplits(w);
    var slashes, origins := w[|u|..], Split(u, ',');
    SplitEnd(u, slashes, ',');
    CorsIsIff(hostOk, w, u);
    if Origins(hostOk, w) == Ok(origins) {
      OriginsGood(hostOk, w);
    }
    if PlainButEnd(hostOk, origins) {
      PartsGood(hostOk, origins);
    }
    if Distinct(origins) && forall i :: 0 <= i < |origins| ==> GoodOrigin(hostOk, origins[i]) {
      GoodParts(hostOk, origins);
      LastPartTrimmed(u, slashes);
      PartsCopiedIff(hostOk, origins, slashes);
    }
  }
}
