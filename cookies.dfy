/**
 * `save_cookies_txt` of generate_cookies.py: keep the browser cookies whose domain mentions
 * one of the requested domains and write them as a Netscape cookies.txt. Loading the
 * browser's cookie jar and writing the file are the caller's part; the jar is a parameter
 * and the file text the result.
 */
module GenerateCookies {
  import opened Wrappers
  import opened Text

  datatype Cookie = Cookie(
    domain: string,
    path: string,
    secure: bool,
    expires: Option<int>,
    name: string,
    value: string)

  /** `any(domain in cookie.domain for domain in domains)`. */
  predicate Wanted(c: Cookie, domains: seq<string>) {
    exists d :: d in domains && Contains(c.domain, d)
  }

  /** The list comprehension that filters the jar. */
  function FilterCookies(jar: seq<Cookie>, domains: seq<string>): (kept: seq<Cookie>)
    ensures forall c :: c in kept ==> c in jar && Wanted(c, domains)
    ensures forall c :: c in jar && Wanted(c, domains) ==> c in kept
    ensures |kept| <= |jar|
  {
    if jar == [] then []
    else (if Wanted(jar[0], domains) then [jar[0]] else []) + FilterCookies(jar[1..], domains)
  }

  /** Filtering keeps the jar's order: it distributes over concatenation. */
  lemma {:induction false} FilterCookiesAppend(a: seq<Cookie>, b: seq<Cookie>, domains: seq<string>)
    ensures FilterCookies(a + b, domains) == FilterCookies(a, domains) + FilterCookies(b, domains)
  {
    if a == [] {
      assert a + b == b;
    } else {
      assert (a + b)[1..] == a[1..] + b;
      FilterCookiesAppend(a[1..], b, domains);
    }
  }

  const HeaderLine: string := "# Netscape HTTP Cookie File"

  /** `str(cookie.expires or 0)`: an absent or zero expiry is written as 0. */
  function ExpiryField(expires: Option<int>): (r: string)
    ensures expires.None? || expires == Some(0) ==> r == "0"
  {
    match expires
    case Some(t) => IntToString(t)
    case None => IntToString(0)
  }

  /** The seven fields of one cookies.txt line, in Netscape order. */
  function Fields(c: Cookie): (f: seq<string>)
    ensures |f| == 7
    ensures f[0] == c.domain && f[2] == c.path && f[5] == c.name && f[6] == c.value
    ensures f[1] == "TRUE" <==> StartsWith(c.domain, ".")
    ensures f[1] == "TRUE" || f[1] == "FALSE"
    ensures f[3] == "TRUE" <==> c.secure
    ensures f[3] == "TRUE" || f[3] == "FALSE"
    ensures f[4] == ExpiryField(c.expires)
  {
    [ c.domain,
      if StartsWith(c.domain, ".") then "TRUE" else "FALSE",
      c.path,
      if c.secure then "TRUE" else "FALSE",
      ExpiryField(c.expires),
      c.name,
      c.value ]
  }

  /** One line as written, without its final "\n": the fields joined by tabs. */
  function Line(c: Cookie): string {
    Join(Fields(c), "\t")
  }

  /** The text the loop writes after the header: each line followed by "\n". */
  function Body(kept: seq<Cookie>): string {
    if kept == [] then "" else Line(kept[0]) + "\n" + Body(kept[1..])
  }

  /** The cookies.txt text `save_cookies_txt` writes, or None when it writes nothing. */
  function CookiesTxt(jar: seq<Cookie>, domains: seq<string>): (r: Option<string>)
    ensures r.None? <==> forall c :: c in jar ==> !Wanted(c, domains)
    ensures r.Some? ==> StartsWith(r.value, HeaderLine + "\n")
  {
    var kept := FilterCookies(jar, domains);
    if kept == [] then None
    else
      assert kept[0] in kept;
      Some(HeaderLine + "\n" + Body(kept))
  }

  /** A cookie whose texts hold neither a tab nor a newline. */
  predicate Plain(c: Cookie) {
    forall s :: s in [c.domain, c.path, c.name, c.value] ==> '\t' !in s && '\n' !in s
  }

  lemma ExpiryFieldPlain(e: Option<int>)
    ensures '\t' !in ExpiryField(e) && '\n' !in ExpiryField(e)
  {
    var r := ExpiryField(e);
    assert forall k :: 0 <= k < |r| ==> IsDigit(r[k]) || r[k] == '-';
  }

  /** Splitting a written line at its tabs gives back exactly the seven fields. */
  lemma LineFields(c: Cookie)
    requires Plain(c)
    ensures Split(Line(c), '\t') == Fields(c)
  {
    ExpiryFieldPlain(c.expires);
    assert c.domain in [c.domain, c.path, c.name, c.value];
    assert c.path in [c.domain, c.path, c.name, c.value];
    assert c.name in [c.domain, c.path, c.name, c.value];
    assert c.value in [c.domain, c.path, c.name, c.value];
    SplitJoin(Fields(c), '\t');
  }

  /** The written lines, without their "\n". */
  function Lines(kept: seq<Cookie>): (ls: seq<string>)
    ensures |ls| == |kept|
  {
    if kept == [] then [] else [Line(kept[0])] + Lines(kept[1..])
  }

  lemma {:induction false} BodyIsJoin(kept: seq<Cookie>)
    ensures Body(kept) == Join(Lines(kept) + [""], "\n")
  {
    if kept != [] {
      BodyIsJoin(kept[1..]);
      assert Lines(kept) + [""] == [Line(kept[0])] + (Lines(kept[1..]) + [""]);
    }
  }

  lemma {:induction false} LinesPlain(kept: seq<Cookie>)
    requires forall c :: c in kept ==> Plain(c)
    ensures forall i :: 0 <= i < |kept| ==> Lines(kept)[i] == Line(kept[i]) && '\n' !in Line(kept[i])
  {
    if kept != [] {
      LinesPlain(kept[1..]);
      var c := kept[0];
      assert c in kept;
      ExpiryFieldPlain(c.expires);
      assert c.domain in [c.domain, c.path, c.name, c.value];
      assert c.path in [c.domain, c.path, c.name, c.value];
      assert c.name in [c.domain, c.path, c.name, c.value];
      assert c.value in [c.domain, c.path, c.name, c.value];
      JoinNoChar(Fields(c), "\t", '\n');
    }
  }

  /**
   * Reading the written file back line by line gives the header, one line per kept cookie in
   * jar order, and the empty text after the final "\n".
   */
  lemma CookiesTxtLines(jar: seq<Cookie>, domains: seq<string>)
    requires forall c :: c in jar ==> Plain(c)
    requires CookiesTxt(jar, domains).Some?
    ensures Split(CookiesTxt(jar, domains).value, '\n')
         == [HeaderLine] + Lines(FilterCookies(jar, domains)) + [""]
  {
    var kept := FilterCookies(jar, domains);
    var all := [HeaderLine] + (Lines(kept) + [""]);
    FileIsJoin(kept);
    LinesNoNewline(kept);
    SplitJoin(all, '\n');
    assert all == [HeaderLine] + Lines(kept) + [""];
  }

  /** The written file is the header, the lines and a final empty part, joined by "\n". */
  lemma FileIsJoin(kept: seq<Cookie>)
    ensures Join([HeaderLine] + (Lines(kept) + [""]), "\n") == HeaderLine + "\n" + Body(kept)
  {
    BodyIsJoin(kept);
    JoinCons(HeaderLine, Lines(kept) + [""], "\n");
  }

  /** No part of the written file holds a newline when no cookie text does. */
  lemma LinesNoNewline(kept: seq<Cookie>)
    requires forall c :: c in kept ==> Plain(c)
    ensures forall i :: 0 <= i < |[HeaderLine] + (Lines(kept) + [""])| ==> '\n' !in ([HeaderLine] + (Lines(kept) + [""]))[i]
  {
    var all := [HeaderLine] + (Lines(kept) + [""]);
    LinesPlain(kept);
    forall i | 0 <= i < |all| ensures '\n' !in all[i] {
      if 0 < i <= |kept| {
        assert all[i] == Lines(kept)[i - 1];
      }
    }
  }
}
