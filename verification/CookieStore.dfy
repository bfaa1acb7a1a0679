/** The cookie store: a map of domains to maps of paths to sets of cookies with unique
    names, against a flat map keyed by (domain, path, name). */
module CookieStore {
  import opened Cookies
  import opened CookieFormat
  import opened CookieText

  type CookieSet = map<string, Cookie>
  type PathMap = map<string, CookieSet>
  type DomainMap = map<string, PathMap>

  // ---------------------------------------------------------------- the flat map

  datatype Key = Key(domain: string, path: string, name: string)

  function KeyOf(c: Cookie): Key { Key(c.domain, c.path, c.name) }

  predicate Filed(m: DomainMap, k: Key) {
    k.domain in m && k.path in m[k.domain] && k.name in m[k.domain][k.path]
  }

  ghost function Flat(m: DomainMap): imap<Key, Cookie> {
    imap k: Key | Filed(m, k) :: m[k.domain][k.path][k.name]
  }

  ghost function FlatDelete(f: imap<Key, Cookie>, x: Key): imap<Key, Cookie> {
    imap k | k in f && k != x :: f[k]
  }

  /** An expired cookie deletes; a transient one may only bring a new value to a living one. */
  ghost function FlatSet(f: imap<Key, Cookie>, c: Cookie, onlyUpdate: bool, now: int): imap<Key, Cookie> {
    var k := KeyOf(c);
    if 0 <= c.expires <= now then FlatDelete(f, k)
    else if k in f && onlyUpdate && !(0 <= f[k].expires <= now) && c.expires < 0 then f[k := f[k].(value := c.value)]
    else f[k := c]
  }

  /** Whether a key is in the range named by an optional domain and an optional path. */
  predicate Selected(k: Key, domain: Option<string>, path: Option<string>) {
    (domain.None? || k.domain == domain.value) && (path.None? || k.path == path.value)
  }

  ghost function FlatClear(f: imap<Key, Cookie>, domain: Option<string>, path: Option<string>): imap<Key, Cookie> {
    imap k | k in f && !Selected(k, domain, path) :: f[k]
  }

  ghost function FlatRemoveExpired(f: imap<Key, Cookie>, domain: Option<string>, path: Option<string>, now: int)
    : imap<Key, Cookie>
  {
    imap k | k in f && !(Selected(k, domain, path) && 0 <= f[k].expires <= now) :: f[k]
  }

  /** Every cookie is filed under its own domain and path, both adjusted, and its name. */
  ghost predicate WellFiled(f: imap<Key, Cookie>) {
    forall k | k in f ::
      KeyOf(f[k]) == k && DomainAdjusted(k.domain) && PathAdjusted(k.path) && k.name != ""
  }

  // ---------------------------------------------------------------- helpers

  function MaxAgeToExpires(maxAge: int, now: int): int {
    if maxAge > 0 then now + maxAge else if maxAge < 0 then -1 else 0
  }

  /** The constructor of CCookie. */
  function MakeCookie(name: string, value: string, domain: string, path: string, maxAge: int,
      httpOnly: int, secure: int, sameSite: SameSite, now: int): Cookie
  {
    Cookie(name, value, AdjustDomain(domain), AdjustPath(path), MaxAgeToExpires(maxAge, now), httpOnly, secure, sameSite)
  }

  predicate Adjusted(c: Cookie) { AdjustDomain(c.domain) == c.domain && AdjustPath(c.path) == c.path }

  lemma MadeIsAdjusted(c: Cookie)
    requires Adjusted(c) && c.IsValid()
    ensures DomainAdjusted(c.domain) && PathAdjusted(c.path)
  {
    AdjustDomainFixes(c.domain);
    AdjustPathFixes(c.path);
  }

  /** AdjustDomainAndPath with bKeepNull: a given string must adjust to a non-empty one. */
  function AdjustGiven(s: Option<string>, adjust: string -> string): Option<string> {
    if s.None? then None else Some(adjust(s.value))
  }

  predicate Usable(s: Option<string>) { s.None? || s.value != "" }

  function Unexpired(cookies: CookieSet, now: int): CookieSet {
    map n | n in cookies && !(0 <= cookies[n].expires <= now) :: cookies[n]
  }

  // ---------------------------------------------------------------- nested and flat

  lemma PutFlat(m: DomainMap, c: Cookie, put: Cookie)
    ensures var paths := if c.domain in m then m[c.domain] else map[];
      var names := if c.path in paths then paths[c.path] else map[];
      Flat(m[c.domain := paths[c.path := names[c.name := put]]]) == Flat(m)[KeyOf(c) := put]
  {
    var paths := if c.domain in m then m[c.domain] else map[];
    var names := if c.path in paths then paths[c.path] else map[];
    var m' := m[c.domain := paths[c.path := names[c.name := put]]];
    forall k: Key ensures Filed(m', k) <==> Filed(m, k) || k == KeyOf(c) { }
  }

  lemma DeleteFlat(m: DomainMap, x: Key)
    requires Filed(m, x)
    ensures var paths := m[x.domain];
      Flat(m[x.domain := paths[x.path := paths[x.path] - {x.name}]]) == FlatDelete(Flat(m), x)
  {
    var paths := m[x.domain];
    var m' := m[x.domain := paths[x.path := paths[x.path] - {x.name}]];
    forall k: Key ensures Filed(m', k) <==> Filed(m, k) && k != x { }
  }

  /** The named path, or nothing, is gone. */
  ghost predicate Cleared(before: DomainMap, domain: Option<string>, path: string, after: DomainMap) {
    && after.Keys == before.Keys
    && forall d | d in before ::
         after[d] == if domain.None? || domain.value == d then before[d] - {path} else before[d]
  }

  lemma ClearedFlat(before: DomainMap, domain: Option<string>, path: string, after: DomainMap)
    requires Cleared(before, domain, path, after)
    ensures Flat(after) == FlatClear(Flat(before), domain, Some(path))
  {
    forall k: Key ensures Filed(after, k) <==> Filed(before, k) && !Selected(k, domain, Some(path)) { }
  }

  lemma DomainGone(m: DomainMap, domain: string)
    ensures Flat(m - {domain}) == FlatClear(Flat(m), Some(domain), None)
  {
    forall k: Key ensures Filed(m - {domain}, k) <==> Filed(m, k) && k.domain != domain { }
  }

  /** What is left of a well filed map is well filed. */
  lemma RestIsFiled(f: imap<Key, Cookie>, g: imap<Key, Cookie>)
    requires WellFiled(f) && forall k | k in g :: k in f && g[k] == f[k]
    ensures WellFiled(g)
  {
  }

  /** The expired cookies of the named path, or of all, are gone. */
  ghost predicate Swept(before: PathMap, path: Option<string>, now: int, after: PathMap) {
    && after.Keys == before.Keys
    && forall p | p in before ::
         after[p] == if path.None? || path.value == p then Unexpired(before[p], now) else before[p]
  }

  ghost predicate AllSwept(before: DomainMap, domain: Option<string>, path: Option<string>, now: int, after: DomainMap) {
    && after.Keys == before.Keys
    && forall d | d in before ::
         if domain.None? || domain.value == d then Swept(before[d], path, now, after[d]) else after[d] == before[d]
  }

  lemma SweptAt(before: DomainMap, domain: Option<string>, path: Option<string>, now: int, after: DomainMap, k: Key)
    requires AllSwept(before, domain, path, now, after)
    ensures Filed(after, k) <==>
      Filed(before, k) && !(Selected(k, domain, path) && 0 <= before[k.domain][k.path][k.name].expires <= now)
    ensures Filed(after, k) ==> after[k.domain][k.path][k.name] == before[k.domain][k.path][k.name]
  {
    if k.domain in before && (domain.None? || domain.value == k.domain) {
      assert Swept(before[k.domain], path, now, after[k.domain]);
    }
  }

  lemma SweptFlat(before: DomainMap, domain: Option<string>, path: Option<string>, now: int, after: DomainMap)
    requires AllSwept(before, domain, path, now, after)
    ensures Flat(after) == FlatRemoveExpired(Flat(before), domain, path, now)
  {
    forall k: Key
      ensures Filed(after, k) <==> k in FlatRemoveExpired(Flat(before), domain, path, now)
      ensures Filed(after, k) ==> after[k.domain][k.path][k.name] == before[k.domain][k.path][k.name]
    {
      SweptAt(before, domain, path, now, after, k);
    }
  }

  // ---------------------------------------------------------------- queries

  /** Who asks, and when. */
  datatype Query = Query(http: bool, secure: bool, now: int)

  predicate Admits(q: Query, c: Cookie) {
    !(0 <= c.expires <= q.now) && (q.http || c.httpOnly == 0) && (q.secure || c.secure == 0)
  }

  /** emplace: a name already present stays. */
  function AddSet(acc: CookieSet, names: CookieSet, q: Query): CookieSet {
    map n | n in acc.Keys + names.Keys && (n in acc || Admits(q, names[n])) :: if n in acc then acc[n] else names[n]
  }

  function Names(m: DomainMap, domain: string, path: string): CookieSet {
    if domain in m && path in m[domain] then m[domain][path] else map[]
  }

  function CollectPaths(acc: CookieSet, m: DomainMap, domain: string, paths: seq<string>, q: Query): CookieSet
    decreases |paths|
  {
    if paths == [] then acc
    else CollectPaths(AddSet(acc, Names(m, domain, paths[0]), q), m, domain, paths[1..], q)
  }

  /** Domains in the outer loop, paths in the inner one. */
  function Collect(acc: CookieSet, m: DomainMap, domains: seq<string>, paths: seq<string>, q: Query): CookieSet
    decreases |domains|
  {
    if domains == [] then acc
    else Collect(CollectPaths(acc, m, domains[0], paths, q), m, domains[1..], paths, q)
  }

  function Drops(d: string, starts: seq<nat>): seq<string>
    requires forall i | 0 <= i < |starts| :: starts[i] <= |d|
  {
    seq(|starts|, i requires 0 <= i < |starts| => d[starts[i]..])
  }

  function DomainList(d: string): seq<string>
  {
    ScanBound(d, 0);
    assert forall i | 0 <= i < |ScanFrom(d, 0)| :: ScanFrom(d, 0)[i] in ScanFrom(d, 0);
    Drops(d, Suffixes(d))
  }

  lemma CollectPathsSnoc(acc: CookieSet, m: DomainMap, domain: string, paths: seq<string>, p: string, q: Query)
    ensures CollectPaths(acc, m, domain, paths + [p], q)
         == AddSet(CollectPaths(acc, m, domain, paths, q), Names(m, domain, p), q)
    decreases |paths|
  {
    if paths == [] {
      assert paths + [p] == [p];
    } else {
      assert (paths + [p])[1..] == paths[1..] + [p];
      CollectPathsSnoc(AddSet(acc, Names(m, domain, paths[0]), q), m, domain, paths[1..], p, q);
    }
  }

  lemma CollectSnoc(acc: CookieSet, m: DomainMap, domains: seq<string>, d: string, paths: seq<string>, q: Query)
    ensures Collect(acc, m, domains + [d], paths, q)
         == CollectPaths(Collect(acc, m, domains, paths, q), m, d, paths, q)
    decreases |domains|
  {
    if domains == [] {
      assert domains + [d] == [d];
    } else {
      assert (domains + [d])[1..] == domains[1..] + [d];
      CollectSnoc(CollectPaths(acc, m, domains[0], paths, q), m, domains[1..], d, paths, q);
    }
  }

  // ---------------------------------------------------------------- the file

  ghost function FlatInsert(f: imap<Key, Cookie>, c: Cookie, now: int): imap<Key, Cookie> {
    if c.expires <= now || KeyOf(c) in f then f else f[KeyOf(c) := c]
  }

  /** Whether all lines were read, and what is stored then. */
  datatype Loaded = Loaded(ok: bool, flat: imap<Key, Cookie>)

  /** A living cookie is inserted in the group that was looked up; if none was yet, it is set. */
  ghost function Stored(f: imap<Key, Cookie>, c: Cookie, looked: bool, now: int): imap<Key, Cookie> {
    if looked then FlatInsert(f, c, now) else if c.expires <= now then f else f[KeyOf(c) := c]
  }

  /** What loading `text` makes of `f`, under the domain and path read last; `looked` says
      whether their group has been looked up. A malformed line ends it; what was loaded
      before stays. */
  ghost function LoadText(f: imap<Key, Cookie>, domain: string, path: string, looked: bool, text: string, now: int): Loaded
    decreases |text|
  {
    if text == "" then Loaded(true, f)
    else
      var n := Fgets(text, BUFFER - 1);
      var line, rest := text[..n], text[n..];
      if line[0] == '\n' || line[0] == '\r' then LoadText(f, domain, path, looked, rest, now)
      else if line[0] != '\t' then
        var group := ReadDomain(line);
        if group.None? then Loaded(false, f) else LoadText(f, group.value.0, group.value.1, true, rest, now)
      else
        var c := ReadCookie(line, domain, path);
        if c.None? then Loaded(false, f)
        else LoadText(Stored(f, c.value, looked, now), domain, path, looked || c.value.expires > now, rest, now)
  }

  /** A domain and path line, and the cookie lines under it. */
  datatype Group = Group(domain: string, path: string, cookies: seq<Cookie>)

  function RenderCookies(cs: seq<Cookie>): string {
    if cs == [] then "" else CookieLine(cs[0]) + RenderCookies(cs[1..])
  }

  function Render(groups: seq<Group>): string {
    if groups == [] then ""
    else DomainLine(groups[0].domain, groups[0].path) + RenderCookies(groups[0].cookies) + Render(groups[1..])
  }

  lemma {:induction false} RenderCookiesSnoc(cs: seq<Cookie>, c: Cookie)
    ensures RenderCookies(cs + [c]) == RenderCookies(cs) + CookieLine(c)
    decreases |cs|
  {
    if cs == [] {
      assert cs + [c] == [c];
      assert RenderCookies([c][1..]) == "";
    } else {
      assert (cs + [c])[1..] == cs[1..] + [c];
      RenderCookiesSnoc(cs[1..], c);
    }
  }

  lemma {:induction false} RenderAppend(a: seq<Group>, b: seq<Group>)
    ensures Render(a + b) == Render(a) + Render(b)
    decreases |a|
  {
    if a == [] {
      assert a + b == b;
    } else {
      assert (a + b)[1..] == a[1..] + b;
      RenderAppend(a[1..], b);
    }
  }

  /** A living persistent cookie of the set. */
  ghost predicate Living(c: Cookie, names: CookieSet, now: int) {
    c.expires > now && exists n :: n in names && names[n] == c
  }

  /** A group of the store, with living persistent cookies of it. */
  ghost predicate GroupOk(g: Group, m: DomainMap, now: int) {
    && g.domain in m && g.path in m[g.domain]
    && forall c | c in g.cookies :: Living(c, m[g.domain][g.path], now)
  }

  ghost predicate Listed(k: Key, groups: seq<Group>, m: DomainMap, now: int)
    requires Filed(m, k)
  {
    exists g | g in groups ::
      && g.domain == k.domain && g.path == k.path
      && (m[k.domain][k.path][k.name].expires > now ==> m[k.domain][k.path][k.name] in g.cookies)
  }

  /** The groups list the store's living persistent cookies: only them, and all of them. */
  ghost predicate Lists(groups: seq<Group>, m: DomainMap, now: int) {
    && (forall g | g in groups :: GroupOk(g, m, now))
    && (forall k | Filed(m, k) :: Listed(k, groups, m, now))
  }

  predicate HasGroup(m: DomainMap, domain: string, path: string) { domain in m && path in m[domain] }

  // ---------------------------------------------------------------- the store

  class CookieMgr {
    var cookies: DomainMap

    constructor ()
      ensures Valid() && Flat(cookies) == imap[]
    {
      cookies := map[];
    }

    ghost predicate Valid()
      reads this
    {
      WellFiled(Flat(cookies))
    }

    method SetCookie(name: string, value: string, domain: string, path: string, maxAge: int,
        httpOnly: int, secure: int, sameSite: SameSite, onlyUpdate: bool, now: int) returns (ok: bool)
      requires Valid()
      modifies this
      ensures Valid()
      ensures var c := MakeCookie(name, value, domain, path, maxAge, httpOnly, secure, sameSite, now);
        && (!c.IsValid() ==> !ok && cookies == old(cookies))
        && (c.IsValid() ==> Flat(cookies) == FlatSet(old(Flat(cookies)), c, onlyUpdate, now)
                            && (ok <==> 0 <= c.expires <= now ==> KeyOf(c) in old(Flat(cookies))))
    {
      var c := MakeCookie(name, value, domain, path, maxAge, httpOnly, secure, sameSite, now);
      if !c.IsValid() {
        return false;
      }
      AdjustDomainFixes(domain);
      AdjustPathFixes(path);
      SetThenGet(Flat(cookies), c, onlyUpdate, now, KeyOf(c));
      ok := SetCookieNoLock(c, onlyUpdate, now);
    }

    method SetCookieNoLock(c: Cookie, onlyUpdate: bool, now: int) returns (ok: bool)
      modifies this
      ensures Flat(cookies) == FlatSet(old(Flat(cookies)), c, onlyUpdate, now)
      ensures ok <==> 0 <= c.expires <= now ==> KeyOf(c) in old(Flat(cookies))
    {
      if c.IsExpired(now) {
        ok := DeleteCookieNoLock(c);
        return;
      }
      ghost var before := Flat(cookies);
      var paths := if c.domain in cookies then cookies[c.domain] else map[];
      var names := if c.path in paths then paths[c.path] else map[];
      var put := c;
      if c.name in names && onlyUpdate && !names[c.name].IsExpired(now) && c.IsTransient() {
        put := names[c.name].(value := c.value);
      }
      assert c.name in names <==> Filed(cookies, KeyOf(c));
      PutFlat(cookies, c, put);
      cookies := cookies[c.domain := paths[c.path := names[c.name := put]]];
      assert before[KeyOf(c) := put] == FlatSet(before, c, onlyUpdate, now);
      return true;
    }

    method DeleteCookie(domain: string, path: string, name: string, now: int) returns (ok: bool)
      requires Valid()
      modifies this
      ensures Valid()
      ensures Flat(cookies) == FlatDelete(old(Flat(cookies)), Key(AdjustDomain(domain), AdjustPath(path), name))
      ensures ok <==> Key(AdjustDomain(domain), AdjustPath(path), name) in old(Flat(cookies))
    {
      var c := MakeCookie(name, "", domain, path, -1, 0, 0, SS_NONE, now);
      if !c.IsValid() {
        assert KeyOf(c) !in Flat(cookies);
        return false;
      }
      ok := DeleteCookieNoLock(c);
    }

    method DeleteCookieNoLock(c: Cookie) returns (ok: bool)
      modifies this
      ensures Flat(cookies) == FlatDelete(old(Flat(cookies)), KeyOf(c))
      ensures ok <==> KeyOf(c) in old(Flat(cookies))
    {
      ok := false;
      if c.domain in cookies {
        var paths := cookies[c.domain];
        if c.path in paths {
          var names := paths[c.path];
          if c.name in names {
            DeleteFlat(cookies, KeyOf(c));
            cookies := cookies[c.domain := paths[c.path := names - {c.name}]];
            ok := true;
          }
        }
      }
    }

    method ClearCookies(domain: Option<string>, path: Option<string>) returns (ok: bool)
      requires Valid()
      modifies this
      ensures Valid()
      ensures var d, p := AdjustGiven(domain, AdjustDomain), AdjustGiven(path, AdjustPath);
        && (ok <==> Usable(d) && Usable(p))
        && Flat(cookies) == if ok then FlatClear(old(Flat(cookies)), d, p) else old(Flat(cookies))
    {
      var d, p := AdjustGiven(domain, AdjustDomain), AdjustGiven(path, AdjustPath);
      if !Usable(d) || !Usable(p) {
        return false;
      }
      ClearDomainCookiesNoLock(d, p);
      return true;
    }

    method ClearDomainCookiesNoLock(domain: Option<string>, path: Option<string>)
      requires Valid()
      modifies this
      ensures Valid() && Flat(cookies) == FlatClear(old(Flat(cookies)), domain, path)
    {
      ghost var before := cookies;
      if domain.None? && path.None? {
        cookies := map[];
      } else if path.None? {
        DomainGone(cookies, domain.value);
        cookies := cookies - {domain.value};
      } else if domain.None? {
        var todo := cookies.Keys;
        while todo != {}
          invariant todo <= cookies.Keys == before.Keys
          invariant forall d | d in todo :: cookies[d] == before[d]
          invariant forall d | d in before.Keys - todo :: cookies[d] == before[d] - {path.value}
        {
          var d :| d in todo;
          cookies := cookies[d := cookies[d] - {path.value}];
          todo := todo - {d};
        }
        ClearedFlat(before, domain, path.value, cookies);
      } else {
        if domain.value in cookies {
          cookies := cookies[domain.value := cookies[domain.value] - {path.value}];
        }
        ClearedFlat(before, domain, path.value, cookies);
      }
      RestIsFiled(Flat(before), Flat(cookies));
    }

    /** `found` is the caller's set; names it already holds stay as they are. */
    method GetCookies(found: CookieSet, domain: string, path: string, http: bool, secure: bool, now: int)
        returns (ok: bool, result: CookieSet)
      ensures ok <==> AdjustDomain(domain) != "" && AdjustPath(path) != ""
      ensures !ok ==> result == found
      ensures ok ==> result == Collect(found, cookies, DomainList(AdjustDomain(domain)), Prefixes(AdjustPath(path)),
                                       Query(http, secure, now))
    {
      var d, p, q := AdjustDomain(domain), AdjustPath(path), Query(http, secure, now);
      if d == "" || p == "" {
        return false, found;
      }
      var domains := ListDomains(d);
      var paths := ListPaths(p);
      result := found;
      for i := 0 to |domains|
        invariant result == Collect(found, cookies, domains[..i], paths, q)
      {
        ghost var acc := result;
        for j := 0 to |paths|
          invariant result == CollectPaths(acc, cookies, domains[i], paths[..j], q)
        {
          result := MatchCookiesNoLock(result, domains[i], paths[j], q);
          CollectPathsSnoc(acc, cookies, domains[i], paths[..j], paths[j], q);
          assert paths[..j + 1] == paths[..j] + [paths[j]];
        }
        assert paths[..|paths|] == paths;
        CollectSnoc(found, cookies, domains[..i], domains[i], paths, q);
        assert domains[..i + 1] == domains[..i] + [domains[i]];
      }
      assert domains[..|domains|] == domains;
      return true, result;
    }

    method MatchCookiesNoLock(found: CookieSet, domain: string, path: string, q: Query) returns (result: CookieSet)
      ensures result == AddSet(found, Names(cookies, domain, path), q)
    {
      result := found;
      if domain in cookies && path in cookies[domain] {
        var names := cookies[domain][path];
        var todo := names.Keys;
        while todo != {}
          invariant todo <= names.Keys
          invariant forall n | n in result :: n in found || n in names.Keys - todo
          invariant forall n | n in found :: n in result && result[n] == found[n]
          invariant forall n | n in names.Keys - todo && n !in found ::
            (n in result <==> Admits(q, names[n])) && (n in result ==> result[n] == names[n])
        {
          var n :| n in todo;
          var c := names[n];
          if !c.IsExpired(q.now) && (q.http || c.httpOnly == 0) && (q.secure || c.secure == 0) && n !in result {
            result := result[n := c];
          }
          todo := todo - {n};
        }
      }
    }

    /** LoadFromFile, of a file that could be opened; `keep` keeps what is stored. `found`
        says whether pCookieSet points to a group: that of the domain line read last, or
        that of the last cookie set without one. */
    method LoadFromFile(text: string, keep: bool, now: int) returns (ok: bool)
      modifies this
      ensures Loaded(ok, Flat(cookies)) == LoadText(if keep then old(Flat(cookies)) else imap[], "", "", false, text, now)
    {
      if !keep {
        cookies := map[];
      }
      var domain, path, rest, found := "", "", text, false;
      ghost var looked := false;
      ghost var whole := LoadText(Flat(cookies), "", "", false, text, now);
      while rest != ""
        invariant whole == LoadText(Flat(cookies), domain, path, looked, rest, now)
        invariant found ==> looked && HasGroup(cookies, domain, path)
        invariant looked && !found ==> !HasGroup(cookies, domain, path)
        decreases |rest|
      {
        var n := Fgets(rest, BUFFER - 1);
        var line := rest[..n];
        rest := rest[n..];
        if line[0] == '\n' || line[0] == '\r' {
          continue;
        } else if line[0] != '\t' {
          var group := ReadDomain(line);
          if group.None? {
            return false;
          }
          domain, path := group.value.0, group.value.1;
          found := domain in cookies && path in cookies[domain];
          looked := true;
        } else {
          var cookie := ReadCookie(line, domain, path);
          if cookie.None? {
            return false;
          }
          if cookie.value.expires <= now {
            continue;
          }
          Store(cookie.value, found, looked, now);
          found, looked := true, true;
        }
      }
      return true;
    }

    /** A living cookie of the file. */
    method Store(c: Cookie, found: bool, ghost looked: bool, now: int)
      requires c.expires > now && c.expires > 0
      requires found ==> looked && HasGroup(cookies, c.domain, c.path)
      requires looked && !found ==> !HasGroup(cookies, c.domain, c.path)
      modifies this
      ensures Flat(cookies) == Stored(old(Flat(cookies)), c, looked, now) && HasGroup(cookies, c.domain, c.path)
    {
      if found {
        var names := cookies[c.domain][c.path];
        if c.name !in names {
          PutFlat(cookies, c, c);
          cookies := cookies[c.domain := cookies[c.domain][c.path := names[c.name := c]]];
        }
      } else {
        assert looked ==> !Filed(cookies, KeyOf(c));
        var done := SetCookieNoLock(c, false, now);
        assert KeyOf(c) in Flat(cookies);
      }
    }

    /** SaveToFile; `existing` is the present content of the file, if there is one. */
    method SaveToFile(existing: Option<string>, keep: bool, now: int)
        returns (ok: bool, text: string, ghost groups: seq<Group>)
      modifies this
      ensures var before := old(Flat(cookies));
        if keep && existing.Some? then Loaded(ok, Flat(cookies)) == LoadText(before, "", "", false, existing.value, now)
        else ok && cookies == old(cookies)
      ensures ok ==> Lists(groups, cookies, now) && text == Render(groups)
    {
      if keep && existing.Some? {
        ok := LoadFromFile(existing.value, true, now);
        if !ok {
          return false, "", [];
        }
      }
      text, groups := "", [];
      var todo := cookies.Keys;
      ghost var stored := cookies;
      while todo != {}
        invariant cookies == stored && todo <= cookies.Keys && text == Render(groups)
        invariant forall g | g in groups :: GroupOk(g, cookies, now)
        invariant forall k | Filed(cookies, k) && k.domain !in todo :: Listed(k, groups, cookies, now)
      {
        var d :| d in todo;
        todo := todo - {d};
        var more, added := SavePaths(cookies, d, now);
        RenderAppend(groups, added);
        text, groups := text + more, groups + added;
      }
      return true, text, groups;
    }

    method RemoveExpiredCookies(domain: Option<string>, path: Option<string>, now: int) returns (ok: bool)
      requires Valid()
      modifies this
      ensures Valid()
      ensures var d, p := AdjustGiven(domain, AdjustDomain), AdjustGiven(path, AdjustPath);
        && (ok <==> Usable(d) && Usable(p))
        && Flat(cookies) == if ok then FlatRemoveExpired(old(Flat(cookies)), d, p, now) else old(Flat(cookies))
    {
      var d, p := AdjustGiven(domain, AdjustDomain), AdjustGiven(path, AdjustPath);
      if !Usable(d) || !Usable(p) {
        return false;
      }
      RemoveExpiredCookiesNoLock(d, p, now);
      return true;
    }

    method RemoveExpiredCookiesNoLock(domain: Option<string>, path: Option<string>, now: int)
      requires Valid()
      modifies this
      ensures Valid() && Flat(cookies) == FlatRemoveExpired(old(Flat(cookies)), domain, path, now)
    {
      ghost var before := cookies;
      if domain.None? {
        var todo := cookies.Keys;
        while todo != {}
          invariant todo <= cookies.Keys == before.Keys
          invariant forall d | d in todo :: cookies[d] == before[d]
          invariant forall d | d in before.Keys - todo :: Swept(before[d], path, now, cookies[d])
        {
          var d :| d in todo;
          var paths := RemoveDomainExpired(cookies[d], path, now);
          cookies := cookies[d := paths];
          todo := todo - {d};
        }
      } else if domain.value in cookies {
        var paths := RemoveDomainExpired(cookies[domain.value], path, now);
        cookies := cookies[domain.value := paths];
      }
      SweptFlat(before, domain, path, now, cookies);
    }
  }

  /** The groups list what is stored under the domain, but for the paths still to do. */
  ghost predicate ListsUnder(groups: seq<Group>, m: DomainMap, d: string, todo: set<string>, now: int) {
    && (forall g | g in groups :: GroupOk(g, m, now))
    && (forall k | Filed(m, k) && k.domain == d && k.path !in todo :: Listed(k, groups, m, now))
  }

  lemma ListsMore(groups: seq<Group>, g: Group, m: DomainMap, d: string, todo: set<string>, now: int)
    requires ListsUnder(groups, m, d, todo + {g.path}, now)
    requires g.domain == d && GroupOk(g, m, now)
    requires forall n | n in m[d][g.path] && m[d][g.path][n].expires > now :: m[d][g.path][n] in g.cookies
    ensures ListsUnder(groups + [g], m, d, todo, now)
  {
    forall k | Filed(m, k) && k.domain == d && k.path !in todo ensures Listed(k, groups + [g], m, now) {
      if k.path == g.path {
        assert g in groups + [g];
      } else {
        assert Listed(k, groups, m, now);
      }
    }
  }

  method SavePaths(m: DomainMap, d: string, now: int) returns (text: string, ghost groups: seq<Group>)
    requires d in m
    ensures text == Render(groups) && ListsUnder(groups, m, d, {}, now)
  {
    text, groups := "", [];
    var todo := m[d].Keys;
    while todo != {}
      invariant todo <= m[d].Keys && text == Render(groups) && ListsUnder(groups, m, d, todo, now)
    {
      var p :| p in todo;
      assert todo == todo - {p} + {p};
      todo := todo - {p};
      var more, cs := SaveSet(m[d][p], now);
      ghost var g := Group(d, p, cs);
      RenderSnoc(groups, g);
      ListsMore(groups, g, m, d, todo, now);
      text, groups := text + DomainLine(d, p) + more, groups + [g];
    }
  }

  lemma RenderSnoc(groups: seq<Group>, g: Group)
    ensures Render(groups + [g]) == Render(groups) + DomainLine(g.domain, g.path) + RenderCookies(g.cookies)
  {
    RenderAppend(groups, [g]);
    assert Render([g]) == DomainLine(g.domain, g.path) + RenderCookies(g.cookies) + "" by { assert Render([g][1..]) == ""; }
  }

  method SaveSet(names: CookieSet, now: int) returns (text: string, ghost cs: seq<Cookie>)
    ensures text == RenderCookies(cs)
    ensures forall c | c in cs :: Living(c, names, now)
    ensures forall n | n in names && names[n].expires > now :: names[n] in cs
  {
    text, cs := "", [];
    var todo := names.Keys;
    while todo != {}
      invariant todo <= names.Keys && text == RenderCookies(cs)
      invariant forall c | c in cs :: Living(c, names, now)
      invariant forall n | n in names.Keys - todo && names[n].expires > now :: names[n] in cs
    {
      var n :| n in todo;
      todo := todo - {n};
      if names[n].expires > now {
        RenderCookiesSnoc(cs, names[n]);
        text, cs := text + CookieLine(names[n]), cs + [names[n]];
      }
    }
  }

  /** The suffixes of the domain: a pointer runs along it and steps over each dot. */
  method ListDomains(d: string) returns (domains: seq<string>)
    requires d != ""
    ensures domains == DomainList(d)
  {
    var starts: seq<nat> := [0];
    var t := 0;
    while t + 1 < |d|
      invariant t < |d| && Suffixes(d) == starts + ScanFrom(d, t)
    {
      t := t + 1;
      if d[t] == DOMAIN_SEP {
        if t + 1 >= |d| {
          break;
        }
        t := t + 1;
        starts := starts + [t];
      }
    }
    assert starts == Suffixes(d);
    ScanBound(d, 0);
    forall i | 0 <= i < |starts| ensures starts[i] <= |d| {
      assert i > 0 ==> starts[i] == ScanFrom(d, 0)[i - 1] && ScanFrom(d, 0)[i - 1] in ScanFrom(d, 0);
    }
    domains := seq(|starts|, i requires 0 <= i < |starts| => d[starts[i]..]);
  }

  /** The prefixes of the path: it is cut at each '/' from the end. */
  method ListPaths(p: string) returns (paths: seq<string>)
    requires p != ""
    ensures paths == Prefixes(p)
  {
    paths := [p];
    var t := |p| - 1;
    while t > 0
      invariant 0 <= t < |p| && Prefixes(p) == paths + PrefixesFrom(p, t)
    {
      t := t - 1;
      if p[t] == PATH_SEP {
        paths := paths + [p[..t + 1]];
      }
    }
  }

  method RemoveDomainExpired(paths: PathMap, path: Option<string>, now: int) returns (r: PathMap)
    ensures Swept(paths, path, now, r)
  {
    r := paths;
    if path.None? {
      var todo := paths.Keys;
      while todo != {}
        invariant todo <= r.Keys == paths.Keys
        invariant forall p | p in todo :: r[p] == paths[p]
        invariant forall p | p in paths.Keys - todo :: r[p] == Unexpired(paths[p], now)
      {
        var p :| p in todo;
        var names := RemovePathExpired(r[p], now);
        r := r[p := names];
        todo := todo - {p};
      }
    } else if path.value in paths {
      var names := RemovePathExpired(paths[path.value], now);
      r := paths[path.value := names];
    }
  }

  /** First the expired cookies are collected, then erased. */
  method RemovePathExpired(cookies: CookieSet, now: int) returns (r: CookieSet)
    ensures r == Unexpired(cookies, now)
  {
    var expired: set<string> := {};
    var todo := cookies.Keys;
    while todo != {}
      invariant todo <= cookies.Keys
      invariant expired == set n | n in cookies.Keys - todo && 0 <= cookies[n].expires <= now
    {
      var n :| n in todo;
      if cookies[n].IsExpired(now) {
        expired := expired + {n};
      }
      todo := todo - {n};
    }
    r := cookies;
    ghost var all := expired;
    while expired != {}
      invariant expired <= all && r == cookies - (all - expired)
    {
      var n :| n in expired;
      r := r - {n};
      expired := expired - {n};
    }
  }

  // ---------------------------------------------------------------- what the operations mean

  /** After a cookie is set, its key holds it, or the old cookie with the new value, or
      nothing if it came expired; no other key changes. */
  lemma SetThenGet(f: imap<Key, Cookie>, c: Cookie, onlyUpdate: bool, now: int, k: Key)
    requires WellFiled(f) && Adjusted(c) && c.IsValid()
    ensures var g := FlatSet(f, c, onlyUpdate, now);
      && WellFiled(g)
      && (k != KeyOf(c) ==> (k in g <==> k in f) && (k in f ==> g[k] == f[k]))
      && (KeyOf(c) in g <==> c.expires < 0 || c.expires > now)
      && (KeyOf(c) in g ==> g[KeyOf(c)].value == c.value && (g[KeyOf(c)].expires < 0 || g[KeyOf(c)].expires > now))
      && (c.expires > now && c.expires >= 0 ==> g[KeyOf(c)] == c)
  {
    MadeIsAdjusted(c);
  }

  /** How long a cookie lives: from SetCookie on, for its maximum age if that is positive, not
      at all if it is 0, and for good if it is negative. */
  lemma MadeLives(name: string, value: string, domain: string, path: string, maxAge: int, httpOnly: int, secure: int,
      sameSite: SameSite, now: int, q: Query)
    requires now >= 0 && q.now >= now && q.http && q.secure
    ensures var c := MakeCookie(name, value, domain, path, maxAge, httpOnly, secure, sameSite, now);
      && (Admits(q, c) <==> maxAge < 0 || q.now - now < maxAge)
      && c.name == name && c.value == value && c.domain == AdjustDomain(domain) && c.path == AdjustPath(path)
      && c.httpOnly == httpOnly && c.secure == secure && c.sameSite == sameSite
  {
  }

  /** Setting the same cookie again changes nothing. */
  lemma SetTwice(f: imap<Key, Cookie>, c: Cookie, onlyUpdate: bool, now: int)
    ensures var g := FlatSet(f, c, onlyUpdate, now); FlatSet(g, c, onlyUpdate, now) == g
  {
    var g := FlatSet(f, c, onlyUpdate, now);
    if c.expires < 0 || c.expires > now { assert FlatSet(g, c, onlyUpdate, now)[KeyOf(c)] == g[KeyOf(c)]; }
  }
}
