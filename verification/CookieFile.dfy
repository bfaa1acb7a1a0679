/** Saving the cookies and loading them again. */
module CookieFile {
  import opened Cookies
  import opened CookieFormat
  import opened CookieStore
  import opened CookieText

  // ---------------------------------------------------------------- one group

  ghost predicate CleanCookies(cs: seq<Cookie>, domain: string, path: string) {
    forall i | 0 <= i < |cs| ::
      CleanCookie(cs[i]) && cs[i].expires > 0 && cs[i].domain == domain && cs[i].path == path
  }

  /** What inserting the living ones of `cs` makes of `f`. */
  ghost function InsertAll(f: imap<Key, Cookie>, cs: seq<Cookie>, now: int): imap<Key, Cookie>
    decreases |cs|
  {
    if cs == [] then f else InsertAll(FlatInsert(f, cs[0], now), cs[1..], now)
  }

  lemma LoadCookieLine(f: imap<Key, Cookie>, looked: bool, c: Cookie, rest: string, now: int)
    requires CleanCookie(c) && c.expires > 0
    ensures LoadText(f, c.domain, c.path, looked, CookieLine(c) + rest, now)
         == LoadText(Stored(f, c, looked, now), c.domain, c.path, looked || c.expires > now, rest, now)
  {
    CookieLineIsRead(c, rest);
    CookieLineBack(c);
    var text := CookieLine(c) + rest;
    assert text[..|CookieLine(c)|] == CookieLine(c) && text[|CookieLine(c)|..] == rest;
  }

  lemma LoadDomainLine(f: imap<Key, Cookie>, d0: string, p0: string, looked: bool, domain: string, path: string, rest: string, now: int)
    requires CleanGroup(domain, path)
    ensures LoadText(f, d0, p0, looked, DomainLine(domain, path) + rest, now) == LoadText(f, domain, path, true, rest, now)
  {
    DomainLineIsRead(domain, path, rest);
    DomainLineBack(domain, path);
    var text, n := DomainLine(domain, path) + rest, |DomainLine(domain, path)|;
    assert text[..n] == DomainLine(domain, path) && text[n..] == rest;
  }

  lemma RenderCookiesFirst(cs: seq<Cookie>, rest: string)
    requires cs != []
    ensures RenderCookies(cs) + rest == CookieLine(cs[0]) + (RenderCookies(cs[1..]) + rest)
  {
  }

  lemma {:induction false} LoadCookieLines(f: imap<Key, Cookie>, domain: string, path: string, cs: seq<Cookie>, rest: string, now: int)
    requires CleanCookies(cs, domain, path)
    ensures LoadText(f, domain, path, true, RenderCookies(cs) + rest, now)
         == LoadText(InsertAll(f, cs, now), domain, path, true, rest, now)
    decreases |cs|
  {
    if cs == [] {
      assert RenderCookies(cs) + rest == rest;
    } else {
      var c, more := cs[0], RenderCookies(cs[1..]) + rest;
      RenderCookiesFirst(cs, rest);
      assert CleanCookie(c) && c.expires > 0 && c.domain == domain && c.path == path;
      LoadCookieLine(f, true, c, more, now);
      LoadCookieLines(FlatInsert(f, c, now), domain, path, cs[1..], rest, now);
    }
  }

  // ---------------------------------------------------------------- all groups

  ghost predicate CleanGroups(groups: seq<Group>) {
    forall i | 0 <= i < |groups| ::
      && CleanGroup(groups[i].domain, groups[i].path)
      && CleanCookies(groups[i].cookies, groups[i].domain, groups[i].path)
  }

  ghost function InsertGroups(f: imap<Key, Cookie>, groups: seq<Group>, now: int): imap<Key, Cookie>
    decreases |groups|
  {
    if groups == [] then f else InsertGroups(InsertAll(f, groups[0].cookies, now), groups[1..], now)
  }

  lemma LoadGroup(f: imap<Key, Cookie>, d: string, p: string, looked: bool, g: Group, rest: string, now: int)
    requires CleanGroup(g.domain, g.path) && CleanCookies(g.cookies, g.domain, g.path)
    ensures LoadText(f, d, p, looked, DomainLine(g.domain, g.path) + (RenderCookies(g.cookies) + rest), now)
         == LoadText(InsertAll(f, g.cookies, now), g.domain, g.path, true, rest, now)
  {
    LoadDomainLine(f, d, p, looked, g.domain, g.path, RenderCookies(g.cookies) + rest, now);
    LoadCookieLines(f, g.domain, g.path, g.cookies, rest, now);
  }

  lemma RenderFirst(groups: seq<Group>)
    requires groups != []
    ensures Render(groups) ==
      DomainLine(groups[0].domain, groups[0].path) + (RenderCookies(groups[0].cookies) + Render(groups[1..]))
  {
  }

  lemma {:induction false} LoadGroups(f: imap<Key, Cookie>, d: string, p: string, looked: bool, groups: seq<Group>, now: int)
    requires CleanGroups(groups)
    ensures LoadText(f, d, p, looked, Render(groups), now) == Loaded(true, InsertGroups(f, groups, now))
    decreases |groups|
  {
    if groups != [] {
      var g, rest := groups[0], Render(groups[1..]);
      LoadGroup(f, d, p, looked, g, rest, now);
      RenderFirst(groups);
      LoadGroups(InsertAll(f, g.cookies, now), g.domain, g.path, true, groups[1..], now);
    }
  }

  // ---------------------------------------------------------------- what is inserted

  /** `f` holds only cookies of `all`, each under its own key. */
  ghost predicate Within(f: imap<Key, Cookie>, all: imap<Key, Cookie>) { forall k | k in f :: k in all && f[k] == all[k] }

  /** A cookie of the list is one of `all`. */
  ghost predicate From(c: Cookie, all: imap<Key, Cookie>) { KeyOf(c) in all && all[KeyOf(c)] == c }

  ghost predicate AllFrom(groups: seq<Group>, all: imap<Key, Cookie>) {
    forall g | g in groups :: forall c | c in g.cookies :: From(c, all)
  }

  /** The list has a living cookie of that key. */
  ghost predicate Has(cs: seq<Cookie>, k: Key, now: int) { exists c | c in cs :: KeyOf(c) == k && c.expires > now }

  lemma {:induction false} InsertAllIs(f: imap<Key, Cookie>, cs: seq<Cookie>, now: int, all: imap<Key, Cookie>)
    requires Within(f, all) && forall c | c in cs :: From(c, all)
    ensures Within(InsertAll(f, cs, now), all)
    ensures forall k :: k in InsertAll(f, cs, now) <==> k in f || Has(cs, k, now)
    decreases |cs|
  {
    if cs != [] {
      var f' := FlatInsert(f, cs[0], now);
      assert From(cs[0], all);
      InsertAllIs(f', cs[1..], now, all);
      forall k: Key ensures Has(cs, k, now) <==> (KeyOf(cs[0]) == k && cs[0].expires > now) || Has(cs[1..], k, now) {
        assert forall c :: c in cs <==> c == cs[0] || c in cs[1..];
      }
    }
  }

  ghost predicate Given(k: Key, groups: seq<Group>, now: int) { exists g | g in groups :: Has(g.cookies, k, now) }

  lemma {:induction false} InsertGroupsIs(f: imap<Key, Cookie>, groups: seq<Group>, now: int, all: imap<Key, Cookie>)
    requires Within(f, all)
    requires AllFrom(groups, all)
    ensures Within(InsertGroups(f, groups, now), all)
    ensures forall k :: k in InsertGroups(f, groups, now) <==> k in f || Given(k, groups, now)
    decreases |groups|
  {
    if groups != [] {
      InsertAllIs(f, groups[0].cookies, now, all);
      InsertGroupsIs(InsertAll(f, groups[0].cookies, now), groups[1..], now, all);
      forall k: Key ensures Given(k, groups, now) <==> Has(groups[0].cookies, k, now) || Given(k, groups[1..], now) {
        assert forall g :: g in groups <==> g == groups[0] || g in groups[1..];
      }
    }
  }

  // ---------------------------------------------------------------- main results

  /** The persistent cookies of a store that live past `now`. */
  ghost function Persistent(f: imap<Key, Cookie>, now: int): imap<Key, Cookie> {
    imap k | k in f && f[k].expires > now :: f[k]
  }

  /** Everything the file will hold can be carried by its format. */
  ghost predicate CleanStore(m: DomainMap, now: int) {
    && (forall d, p | d in m && p in m[d] :: CleanGroup(d, p))
    && (forall k | Filed(m, k) && Flat(m)[k].expires > now :: CleanCookie(Flat(m)[k]))
  }

  lemma GroupsAreClean(groups: seq<Group>, m: DomainMap, now: int)
    requires WellFiled(Flat(m)) && CleanStore(m, now) && now >= 0 && Lists(groups, m, now)
    ensures CleanGroups(groups)
    ensures AllFrom(groups, Flat(m))
  {
    forall g, c | g in groups && c in g.cookies
      ensures From(c, Flat(m)) && CleanCookie(c) && c.expires > 0 && c.domain == g.domain && c.path == g.path
    {
      assert GroupOk(g, m, now) && Living(c, m[g.domain][g.path], now);
      var n :| n in m[g.domain][g.path] && m[g.domain][g.path][n] == c;
      var k := Key(g.domain, g.path, n);
      assert Filed(m, k) && k in Flat(m) && KeyOf(Flat(m)[k]) == k;
    }
    forall i | 0 <= i < |groups|
      ensures CleanGroup(groups[i].domain, groups[i].path)
      ensures CleanCookies(groups[i].cookies, groups[i].domain, groups[i].path)
    {
      assert groups[i] in groups && GroupOk(groups[i], m, now);
    }
  }

  /** The cookies listed at `saved` that live past `loaded`. */
  lemma GivenIff(groups: seq<Group>, m: DomainMap, saved: int, loaded: int, k: Key)
    requires WellFiled(Flat(m)) && saved <= loaded && Lists(groups, m, saved)
    requires AllFrom(groups, Flat(m))
    ensures Given(k, groups, loaded) <==> k in Persistent(Flat(m), loaded)
  {
    if k in Persistent(Flat(m), loaded) {
      assert Filed(m, k) && Listed(k, groups, m, saved);
      var g :| g in groups && g.domain == k.domain && g.path == k.path && Flat(m)[k] in g.cookies;
      assert KeyOf(Flat(m)[k]) == k;
      assert Has(g.cookies, k, loaded);
    }
  }

  lemma InsertedIsPersistent(groups: seq<Group>, m: DomainMap, saved: int, loaded: int, r: imap<Key, Cookie>)
    requires WellFiled(Flat(m)) && saved <= loaded && Lists(groups, m, saved)
    requires AllFrom(groups, Flat(m))
    requires Within(r, Flat(m)) && forall k :: k in r <==> Given(k, groups, loaded)
    ensures r == Persistent(Flat(m), loaded)
  {
    var all := Flat(m);
    forall k: Key ensures k in r <==> k in all && all[k].expires > loaded { GivenIff(groups, m, saved, loaded, k); }
    SameCookies(r, all, loaded);
  }

  lemma SameCookies(r: imap<Key, Cookie>, all: imap<Key, Cookie>, now: int)
    requires Within(r, all) && forall k :: k in r <==> k in all && all[k].expires > now
    ensures r == Persistent(all, now)
  {
  }

  /** Whatever the order in which the store is written: loading the file into an empty
      store, now or later, gives exactly the persistent cookies that are still alive. */
  lemma RoundTrip(groups: seq<Group>, m: DomainMap, saved: int, loaded: int)
    requires WellFiled(Flat(m)) && CleanStore(m, saved) && 0 <= saved <= loaded && Lists(groups, m, saved)
    ensures LoadText(imap[], "", "", false, Render(groups), loaded) == Loaded(true, Persistent(Flat(m), loaded))
  {
    GroupsAreClean(groups, m, saved);
    var empty: imap<Key, Cookie> := imap[];
    LoadGroups(empty, "", "", false, groups, loaded);
    InsertGroupsIs(empty, groups, loaded, Flat(m));
    InsertedIsPersistent(groups, m, saved, loaded, InsertGroups(empty, groups, loaded));
  }

  /** The two methods together. */
  method SaveThenLoad(mgr: CookieMgr, saved: int, loaded: int) returns (copy: CookieMgr)
    requires mgr.Valid() && CleanStore(mgr.cookies, saved) && 0 <= saved <= loaded
    modifies mgr
    ensures mgr.cookies == old(mgr.cookies)
    ensures fresh(copy) && Flat(copy.cookies) == Persistent(Flat(mgr.cookies), loaded)
  {
    var ok, text, groups := mgr.SaveToFile(None, false, saved);
    RoundTrip(groups, mgr.cookies, saved, loaded);
    copy := new CookieMgr();
    ok := copy.LoadFromFile(text, false, loaded);
  }

  // ---------------------------------------------------------------- loading anything

  lemma ReadDomainAdjusts(line: string)
    ensures var g := ReadDomain(line); g.Some? ==> DomainAdjusted(g.value.0) && PathAdjusted(g.value.1)
  {
    var t := Tokens(line, DOMAIN_DELIMS, 2);
    if t.Some? && |t.value| == 2 {
      AdjustDomainFixes(t.value[0]);
      AdjustPathFixes(t.value[1]);
    }
  }

  /** The first living cookie whose line stands before the first domain line and before the
      first malformed line. It is filed under an empty domain and path. */
  function Stray(text: string, now: int): (s: Option<Cookie>)
    ensures s.Some? ==> s.value.domain == "" && s.value.expires > now
    decreases |text|
  {
    if text == "" then None
    else
      var n := Fgets(text, BUFFER - 1);
      if text[0] == '\n' || text[0] == '\r' then Stray(text[n..], now)
      else if text[0] != '\t' then None
      else
        var c := ReadCookie(text[..n], "", "");
        if c.None? then None else if c.value.expires <= now then Stray(text[n..], now) else c
  }

  ghost predicate Extends(g: imap<Key, Cookie>, f: imap<Key, Cookie>) { forall k | k in f :: k in g && g[k] == f[k] }

  /** Once a group has been looked up, nothing that is stored goes or changes. */
  lemma {:induction false} LoadExtends(f: imap<Key, Cookie>, domain: string, path: string, text: string, now: int)
    ensures Extends(LoadText(f, domain, path, true, text, now).flat, f)
    decreases |text|
  {
    if text != "" {
      var n := Fgets(text, BUFFER - 1);
      var line, rest := text[..n], text[n..];
      if line[0] == '\n' || line[0] == '\r' {
        LoadExtends(f, domain, path, rest, now);
      } else if line[0] != '\t' {
        var g := ReadDomain(line);
        if g.Some? { LoadExtends(f, g.value.0, g.value.1, rest, now); }
      } else {
        var c := ReadCookie(line, domain, path);
        if c.Some? { LoadExtends(FlatInsert(f, c.value, now), domain, path, rest, now); }
      }
    }
  }

  lemma {:induction false} LoadStaysFiled(f: imap<Key, Cookie>, domain: string, path: string, text: string, now: int)
    requires WellFiled(f) && DomainAdjusted(domain) && PathAdjusted(path)
    ensures WellFiled(LoadText(f, domain, path, true, text, now).flat)
    decreases |text|
  {
    if text != "" {
      var n := Fgets(text, BUFFER - 1);
      var line, rest := text[..n], text[n..];
      if line[0] == '\n' || line[0] == '\r' {
        LoadStaysFiled(f, domain, path, rest, now);
      } else if line[0] != '\t' {
        ReadDomainAdjusts(line);
        var g := ReadDomain(line);
        if g.Some? { LoadStaysFiled(f, g.value.0, g.value.1, rest, now); }
      } else {
        var c := ReadCookie(line, domain, path);
        if c.Some? { LoadStaysFiled(FlatInsert(f, c.value, now), domain, path, rest, now); }
      }
    }
  }

  /** What a file does to a store before a group is looked up: nothing, or the stray cookie
      is set, whatever was stored under its key. */
  lemma {:induction false} LoadFront(f: imap<Key, Cookie>, text: string, now: int)
    ensures var s, g := Stray(text, now), LoadText(f, "", "", false, text, now).flat;
      if s.Some? then Extends(g, f[KeyOf(s.value) := s.value]) else Extends(g, f) && (WellFiled(f) ==> WellFiled(g))
    decreases |text|
  {
    if text != "" {
      var n := Fgets(text, BUFFER - 1);
      var line, rest := text[..n], text[n..];
      if line[0] == '\n' || line[0] == '\r' {
        LoadFront(f, rest, now);
      } else if line[0] != '\t' {
        ReadDomainAdjusts(line);
        var g := ReadDomain(line);
        if g.Some? {
          LoadExtends(f, g.value.0, g.value.1, rest, now);
          if WellFiled(f) { LoadStaysFiled(f, g.value.0, g.value.1, rest, now); }
        }
      } else {
        var c := ReadCookie(line, "", "");
        if c.Some? {
          if c.value.expires <= now {
            LoadFront(f, rest, now);
          } else {
            LoadExtends(f[KeyOf(c.value) := c.value], "", "", rest, now);
          }
        }
      }
    }
  }

  /** Loading a file keeps a store well filed exactly if the file has no stray cookie. */
  lemma LoadKeepsFiled(f: imap<Key, Cookie>, text: string, now: int)
    requires WellFiled(f)
    ensures WellFiled(LoadText(f, "", "", false, text, now).flat) <==> Stray(text, now).None?
  {
    LoadFront(f, text, now);
    var s := Stray(text, now);
    if s.Some? {
      var k := KeyOf(s.value);
      assert k in f[k := s.value];
      assert k in LoadText(f, "", "", false, text, now).flat;
    }
  }

  /** It keeps every stored cookie as it is exactly if the stray cookie, if there is one, is
      not stored yet, or is stored just so. */
  lemma LoadReplacesIff(f: imap<Key, Cookie>, text: string, now: int)
    ensures Extends(LoadText(f, "", "", false, text, now).flat, f) <==>
      var s := Stray(text, now);
      s.None? || KeyOf(s.value) !in f || f[KeyOf(s.value)] == s.value
  {
    LoadFront(f, text, now);
    var s, g := Stray(text, now), LoadText(f, "", "", false, text, now).flat;
    if s.Some? {
      var k := KeyOf(s.value);
      assert k in f[k := s.value] && g[k] == s.value;
      forall j | j in f && (k !in f || f[k] == s.value) ensures j in g && g[j] == f[j] {
        assert j in f[k := s.value];
      }
    }
  }

  /** For instance: a file of one cookie line, loaded over a store that has the cookie with
      another value. */
  lemma StrayCookie(c: Cookie, before: string, now: int)
    requires CleanCookie(c) && c.expires > now >= 0 && c.domain == "" && c.path == "" && before != c.value
    ensures LoadText(imap[KeyOf(c) := c.(value := before)], "", "", false, CookieLine(c), now) == Loaded(true, imap[KeyOf(c) := c])
    ensures LoadText(imap[], "", "", false, CookieLine(c), now) == Loaded(true, imap[KeyOf(c) := c])
    ensures !WellFiled(imap[KeyOf(c) := c])
  {
    assert CookieLine(c) + "" == CookieLine(c);
    var f: imap<Key, Cookie> := imap[KeyOf(c) := c.(value := before)];
    LoadCookieLine(imap[], false, c, "", now);
    LoadCookieLine(f, false, c, "", now);
    var empty: imap<Key, Cookie> := imap[];
    assert empty[KeyOf(c) := c] == imap[KeyOf(c) := c] == f[KeyOf(c) := c];
    assert KeyOf(c) in imap[KeyOf(c) := c];
  }
}
