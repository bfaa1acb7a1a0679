/** The two kinds of lines of the cookie file, written and read. */
module CookieFormat {
  import opened Cookies
  import opened CookieText

  const DOMAIN_DELIMS: set<char> := {' ', '\n', '\r'}
  const COOKIE_DELIMS: set<char> := {'\t', ';', '\n', '\r'}

  function SameSiteNumber(s: SameSite): int {
    match s case SS_NONE => 0 case SS_STRICT => 1 case SS_LAX => 2
  }

  function SameSiteOf(i: int): Option<SameSite> {
    if i == 0 then Some(SS_NONE) else if i == 1 then Some(SS_STRICT) else if i == 2 then Some(SS_LAX) else None
  }

  // ---------------------------------------------------------------- writing

  function DomainLine(domain: string, path: string): string { Line([domain, path], ' ', '\n') }

  /** An empty value is written as a blank, so that it makes a token. */
  function Fields(c: Cookie): seq<string> {
    [c.name, if c.value == "" then " " else c.value, Print(c.expires), Print(c.httpOnly), Print(c.secure),
     Print(SameSiteNumber(c.sameSite))]
  }

  function CookieLine(c: Cookie): string { "\t" + Line(Fields(c), ';', '\n') }

  // ---------------------------------------------------------------- reading

  /** LoadDomainAndPath */
  function ReadDomain(line: string): Option<(string, string)> {
    var t := Tokens(line, DOMAIN_DELIMS, 2);
    if t.None? || |t.value| != 2 then None
    else
      var domain, path := AdjustDomain(t.value[0]), AdjustPath(t.value[1]);
      if domain == "" || path == "" then None else Some((domain, path))
  }

  /** LoadCookie */
  function ReadCookie(line: string, domain: string, path: string): Option<Cookie> {
    var t := Tokens(line, COOKIE_DELIMS, 6);
    if t.None? || |t.value| != 6 then None else FromFields(t.value, domain, path)
  }

  function FromFields(t: seq<string>, domain: string, path: string): Option<Cookie>
    requires |t| == 6
  {
    var name, value, expires := Trim(t[0]), Trim(t[1]), Atoi(t[2]);
    var sameSite := SameSiteOf(Atoi(t[5]));
    if name == "" || expires <= 0 || sameSite.None? then None
    else Some(Cookie(name, value, domain, path, expires, Atoi(t[3]), Atoi(t[4]), sameSite.value))
  }

  // ---------------------------------------------------------------- there and back

  /** Names and values the format can carry: no separators, no outer white space. */
  predicate CleanText(s: string) {
    (forall i | 0 <= i < |s| :: s[i] !in COOKIE_DELIMS) && Trim(s) == s
  }

  predicate CleanGroup(domain: string, path: string) {
    && DomainAdjusted(domain) && PathAdjusted(path) && domain[0] != '\t'
    && Token(domain, DOMAIN_DELIMS) && Token(path, DOMAIN_DELIMS)
    && |DomainLine(domain, path)| < BUFFER
  }

  predicate CleanCookie(c: Cookie) {
    c.name != "" && CleanText(c.name) && CleanText(c.value) && |CookieLine(c)| < BUFFER
  }

  lemma DomainLineBack(domain: string, path: string)
    requires CleanGroup(domain, path)
    ensures ReadDomain(DomainLine(domain, path)) == Some((domain, path))
  {
    TokensOfLine([domain, path], ' ', '\n', DOMAIN_DELIMS);
    AdjustDomainFixes(domain);
    AdjustPathFixes(path);
  }

  lemma PrintIsToken(i: int)
    ensures Token(Print(i), COOKIE_DELIMS) && Atoi(Print(i)) == i
  {
    AtoiPrint(i);
  }

  lemma FieldsAreTokens(c: Cookie)
    requires CleanCookie(c)
    ensures forall i | 0 <= i < 6 :: Token(Fields(c)[i], COOKIE_DELIMS)
  {
    PrintIsToken(c.expires);
    PrintIsToken(c.httpOnly);
    PrintIsToken(c.secure);
    PrintIsToken(SameSiteNumber(c.sameSite));
    assert Token(c.name, COOKIE_DELIMS);
    assert Token(if c.value == "" then " " else c.value, COOKIE_DELIMS);
  }

  lemma FieldsBack(c: Cookie)
    requires CleanCookie(c) && c.expires > 0
    ensures FromFields(Fields(c), c.domain, c.path) == Some(c)
  {
    PrintIsToken(c.expires);
    PrintIsToken(c.httpOnly);
    PrintIsToken(c.secure);
    PrintIsToken(SameSiteNumber(c.sameSite));
    assert Trim(" ") == "" by { assert TrimLeft(" ") == TrimLeft(" "[1..]) == ""; }
  }

  lemma CookieLineBack(c: Cookie)
    requires CleanCookie(c) && c.expires > 0
    ensures ReadCookie(CookieLine(c), c.domain, c.path) == Some(c)
  {
    var line := Line(Fields(c), ';', '\n');
    assert Tokens(CookieLine(c), COOKIE_DELIMS, 6) == Some(Fields(c)) by {
      FieldsAreTokens(c);
      TokensOfLine(Fields(c), ';', '\n', COOKIE_DELIMS);
      LeadingDelim('\t', line, COOKIE_DELIMS, 6);
    }
    FieldsBack(c);
  }

  lemma {:induction false} OneNewline(fields: seq<string>, sep: char)
    requires fields != [] && sep != '\n'
    requires forall i | 0 <= i < |fields| :: forall j | 0 <= j < |fields[i]| :: fields[i][j] != '\n'
    ensures var l := Line(fields, sep, '\n');
      l != "" && l[|l| - 1] == '\n' && forall i | 0 <= i < |l| - 1 :: l[i] != '\n'
    decreases |fields|
  {
    if |fields| > 1 { OneNewline(fields[1..], sep); }
  }

  /** Both kinds of lines come back from fgets whole. */
  lemma DomainLineIsRead(domain: string, path: string, rest: string)
    requires CleanGroup(domain, path)
    ensures Fgets(DomainLine(domain, path) + rest, BUFFER - 1) == |DomainLine(domain, path)|
    ensures DomainLine(domain, path)[0] == domain[0] && domain[0] != '\n' && domain[0] != '\r' && domain[0] != '\t'
  {
    OneNewline([domain, path], ' ');
    FgetsLine(DomainLine(domain, path), rest, BUFFER - 1);
  }

  lemma CookieLineIsRead(c: Cookie, rest: string)
    requires CleanCookie(c)
    ensures Fgets(CookieLine(c) + rest, BUFFER - 1) == |CookieLine(c)|
    ensures CookieLine(c)[0] == '\t'
  {
    FieldsAreTokens(c);
    forall i | 0 <= i < 6 ensures forall j | 0 <= j < |Fields(c)[i]| :: Fields(c)[i][j] != '\n' {
      assert Token(Fields(c)[i], COOKIE_DELIMS);
    }
    OneNewline(Fields(c), ';');
    FgetsLine(CookieLine(c), rest, BUFFER - 1);
  }
}
