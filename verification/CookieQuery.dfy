/** GetCookies against a scan of the whole store with Match. */
module CookieQuery {
  import opened Cookies
  import opened CookieStore

  // ---------------------------------------------------------------- first hits

  /** The cookie of that name under that domain and path is there for the asker. */
  predicate Hit(m: DomainMap, d: string, p: string, n: string, q: Query) {
    n in Names(m, d, p) && Admits(q, Names(m, d, p)[n])
  }

  /** The order of preference: the longer domain, then the longer path. */
  predicate Before(d: string, p: string, d': string, p': string) {
    |d| > |d'| || (|d| == |d'| && |p| >= |p'|)
  }

  ghost predicate Shrinking(l: seq<string>) { forall i, j | 0 <= i < j < |l| :: |l[i]| > |l[j]| }

  lemma ShrinkingTail(l: seq<string>)
    requires Shrinking(l) && l != []
    ensures Shrinking(l[1..]) && forall x | x in l[1..] :: |x| < |l[0]|
  {
  }

  /** Under one domain: the first hit along the paths wins. */
  lemma {:induction false} PathsFirst(acc: CookieSet, m: DomainMap, d: string, paths: seq<string>, q: Query, n: string)
    requires Shrinking(paths)
    ensures var r := CollectPaths(acc, m, d, paths, q);
      && (n in acc ==> n in r && r[n] == acc[n])
      && (n !in acc ==> (n in r <==> exists p | p in paths :: Hit(m, d, p, n, q)))
      && (n !in acc && n in r ==> exists p | p in paths && Hit(m, d, p, n, q) ::
            r[n] == Names(m, d, p)[n] && forall p' | p' in paths && Hit(m, d, p', n, q) :: |p| >= |p'|)
    decreases |paths|
  {
    if paths != [] {
      ShrinkingTail(paths);
      var acc' := AddSet(acc, Names(m, d, paths[0]), q);
      PathsFirst(acc', m, d, paths[1..], q, n);
      assert forall p :: p in paths <==> p == paths[0] || p in paths[1..];
      assert n in acc' <==> n in acc || Hit(m, d, paths[0], n, q);
    }
  }

  /** Over all domains: the first hit in the order of preference wins. */
  lemma {:induction false} CollectFirst(acc: CookieSet, m: DomainMap, domains: seq<string>, paths: seq<string>, q: Query, n: string)
    requires Shrinking(domains) && Shrinking(paths)
    ensures var r := Collect(acc, m, domains, paths, q);
      && (n in acc ==> n in r && r[n] == acc[n])
      && (n !in acc ==> (n in r <==> exists d, p | d in domains && p in paths :: Hit(m, d, p, n, q)))
      && (n !in acc && n in r ==> exists d, p | d in domains && p in paths && Hit(m, d, p, n, q) ::
            r[n] == Names(m, d, p)[n]
            && forall d', p' | d' in domains && p' in paths && Hit(m, d', p', n, q) :: Before(d, p, d', p'))
    decreases |domains|
  {
    if domains != [] {
      ShrinkingTail(domains);
      var acc' := CollectPaths(acc, m, domains[0], paths, q);
      PathsFirst(acc, m, domains[0], paths, q, n);
      CollectFirst(acc', m, domains[1..], paths, q, n);
      assert forall d :: d in domains <==> d == domains[0] || d in domains[1..];
    }
  }

  // ---------------------------------------------------------------- the scan

  /** What a scan of all stored cookies finds. */
  ghost predicate Found(m: DomainMap, d: string, p: string, q: Query, k: Key) {
    k in Flat(m) && Match(Flat(m)[k], d, p, q.http, q.secure) && !(0 <= Flat(m)[k].expires <= q.now)
  }

  lemma StartsAreOrdered(d: string)
    requires d != ""
    ensures var starts := Suffixes(d);
      && (forall i, j | 0 <= i < j < |starts| :: starts[i] < starts[j])
      && (forall i | 0 <= i < |starts| :: starts[i] < |d|)
  {
    ScanBound(d, 0);
    var starts := Suffixes(d);
    forall i | 0 < i < |starts| ensures 1 < starts[i] < |d| {
      assert starts[i] == ScanFrom(d, 0)[i - 1] && ScanFrom(d, 0)[i - 1] in ScanFrom(d, 0);
    }
  }

  lemma DomainListIff(d: string, x: string)
    requires DomainAdjusted(d)
    ensures x in DomainList(d) <==>
      |x| <= |d| && x == d[|d| - |x|..] && (x == d || (x != "" && DotsBefore(d, |d| - |x|) % 2 == 1))
    ensures Shrinking(DomainList(d))
  {
    StartsAreOrdered(d);
    InDrops(d, x);
    var k := |d| - |x|;
    if 0 < k < |d| {
      ScannedIff(d, 0, k);
      assert k in Suffixes(d) <==> k in ScanFrom(d, 0);
    }
  }

  lemma InDrops(d: string, x: string)
    requires d != ""
    ensures x in DomainList(d) <==> |x| <= |d| && x == d[|d| - |x|..] && |d| - |x| in Suffixes(d)
  {
    StartsAreOrdered(d);
    var starts := Suffixes(d);
    if x in DomainList(d) {
      var i :| 0 <= i < |DomainList(d)| && DomainList(d)[i] == x;
      assert x == d[starts[i]..];
    }
    if |x| <= |d| && x == d[|d| - |x|..] && |d| - |x| in starts {
      var i :| 0 <= i < |starts| && starts[i] == |d| - |x|;
      assert DomainList(d)[i] == x;
    }
  }

  /** A stored cookie's domain, seen from a host `d`. */
  lemma SuffixMatch(d: string, x: string)
    requires DomainAdjusted(d) && DomainAdjusted(x) && |x| <= |d|
    ensures Lower(d[|d| - |x|..]) == Lower(x) <==> d[|d| - |x|..] == x
  {
    LowerSuffix(d, |d| - |x|);
  }

  /** Being listed is the domain part of matching. */
  lemma ListedIffMatches(d: string, x: string)
    requires DomainAdjusted(d) && DomainAdjusted(x) && OddRuns(d)
    ensures x in DomainList(d) <==>
      && |x| <= |d| && Lower(d[|d| - |x|..]) == Lower(x)
      && (|d| > |x| ==> d[|d| - |x| - 1] == DOMAIN_SEP)
  {
    DomainListIff(d, x);
    if |x| <= |d| {
      SuffixMatch(d, x);
      if x == d[|d| - |x|..] && |x| < |d| {
        assert d[|d| - |x|] == x[0];
        OddDots(d, |d| - |x|);
      }
    }
  }

  lemma PrefixedIff(p: string, y: string)
    requires PathAdjusted(p) && PathAdjusted(y)
    ensures y in Prefixes(p) <==> y <= p
  {
    PrefixesIff(p, y);
  }

  /** Where an odd number of dots stands before the suffix, or none is needed, trying it
      is the same as matching. */
  lemma HitIsFound(m: DomainMap, d: string, p: string, q: Query, k: Key)
    requires WellFiled(Flat(m)) && DomainAdjusted(d) && PathAdjusted(p) && OddRuns(d)
    ensures (k.domain in DomainList(d) && k.path in Prefixes(p) && Hit(m, k.domain, k.path, k.name, q))
       <==> Found(m, d, p, q, k)
  {
    assert Hit(m, k.domain, k.path, k.name, q) <==> k in Flat(m) && Admits(q, Flat(m)[k]);
    if k in Flat(m) {
      assert KeyOf(Flat(m)[k]) == k;
      ListedIffMatches(d, k.domain);
      PrefixedIff(p, k.path);
    }
  }

  lemma OddDots(d: string, k: nat)
    requires DomainAdjusted(d) && 0 < k < |d| && d[k] != DOMAIN_SEP && OddRuns(d)
    ensures DotsBefore(d, k) % 2 == 1 <==> d[k - 1] == DOMAIN_SEP
  {
  }

  ghost predicate Best(m: DomainMap, d: string, p: string, q: Query, k: Key) {
    && Found(m, d, p, q, k)
    && forall k': Key | k'.name == k.name && Found(m, d, p, q, k') :: Before(k.domain, k.path, k'.domain, k'.path)
  }

  /** GetCookies finds, for each name, the cookie with the longest matching domain, and of
      these the longest matching path, among all unexpired stored cookies that Match
      accepts: exactly what a scan would find. */
  lemma GetCookiesIsScan(m: DomainMap, d: string, p: string, q: Query, n: string)
    requires WellFiled(Flat(m)) && DomainAdjusted(d) && PathAdjusted(p) && OddRuns(d)
    ensures var r := Collect(map[], m, DomainList(d), Prefixes(p), q);
      && (n in r <==> exists k: Key :: k.name == n && Found(m, d, p, q, k))
      && (n in r ==> exists k: Key :: k.name == n && Best(m, d, p, q, k) && r[n] == Flat(m)[k])
  {
    var r := Collect(map[], m, DomainList(d), Prefixes(p), q);
    DomainListIff(d, d);
    PrefixesIff(p, p);
    CollectFirst(map[], m, DomainList(d), Prefixes(p), q, n);
    if n in r {
      var x, y :| x in DomainList(d) && y in Prefixes(p) && Hit(m, x, y, n, q) && r[n] == Names(m, x, y)[n]
        && forall d', p' | d' in DomainList(d) && p' in Prefixes(p) && Hit(m, d', p', n, q) :: Before(x, y, d', p');
      var k := Key(x, y, n);
      HitIsFound(m, d, p, q, k);
      forall k': Key | k'.name == n && Found(m, d, p, q, k') ensures Before(x, y, k'.domain, k'.path) {
        HitIsFound(m, d, p, q, k');
      }
      assert Best(m, d, p, q, k);
    }
    forall k: Key | k.name == n && Found(m, d, p, q, k) ensures n in r {
      HitIsFound(m, d, p, q, k);
    }
  }

  /** What GetCookies returns is never expired, and is for the asker. */
  lemma ReturnedLives(m: DomainMap, d: string, p: string, q: Query, n: string)
    requires DomainAdjusted(d) && PathAdjusted(p)
    ensures var r := Collect(map[], m, DomainList(d), Prefixes(p), q);
      n in r ==> (r[n].expires < 0 || r[n].expires > q.now) && (q.http || r[n].httpOnly == 0) && (q.secure || r[n].secure == 0)
  {
    DomainListIff(d, d);
    PrefixesIff(p, p);
    CollectFirst(map[], m, DomainList(d), Prefixes(p), q, n);
  }

  lemma FoundShape(m: DomainMap, d: string, p: string, q: Query, k: Key)
    requires WellFiled(Flat(m)) && DomainAdjusted(d) && Found(m, d, p, q, k)
    ensures |k.domain| <= |d| && k.domain == d[|d| - |k.domain|..] && |k.path| <= |p| && k.path == p[..|k.path|]
  {
    assert KeyOf(Flat(m)[k]) == k;
    SuffixMatch(d, k.domain);
  }

  /** The best key of a name is unique. */
  lemma BestIsUnique(m: DomainMap, d: string, p: string, q: Query, k: Key, k': Key)
    requires WellFiled(Flat(m)) && DomainAdjusted(d)
    requires Best(m, d, p, q, k) && Best(m, d, p, q, k') && k.name == k'.name
    ensures k == k'
  {
    FoundShape(m, d, p, q, k);
    FoundShape(m, d, p, q, k');
    assert |k.domain| == |k'.domain| && |k.path| == |k'.path|;
  }

  /** A store with one cookie. */
  function Single(c: Cookie): DomainMap { map[c.domain := map[c.path := map[c.name := c]]] }

  /** The condition on the host is exact: if some run of dots inside it has even length,
      the suffix after the run is not tried, and a store with one cookie of that domain
      shows the difference. */
  lemma EvenRunMisses(d: string, k: nat, q: Query)
    requires DomainAdjusted(d) && 1 < k < |d| && d[k - 1] == DOMAIN_SEP && d[k] != DOMAIN_SEP
    requires DotsBefore(d, k) % 2 == 0
    ensures var c := Cookie("n", "v", d[k..], "/", -1, 0, 0, SS_NONE);
      && WellFiled(Flat(Single(c)))
      && Found(Single(c), d, "/", q, KeyOf(c))
      && Collect(map[], Single(c), DomainList(d), Prefixes("/"), q) == map[]
  {
    var c := Cookie("n", "v", d[k..], "/", -1, 0, 0, SS_NONE);
    var m := Single(c);
    LowerSuffix(d, k);
    assert Flat(m) == imap[KeyOf(c) := c];
    assert DomainAdjusted(c.domain) && PathAdjusted(c.path);
    SuffixMatch(d, c.domain);
    DomainListIff(d, c.domain);
    PrefixesIff("/", "/");
    var r := Collect(map[], m, DomainList(d), Prefixes("/"), q);
    forall n ensures n !in r {
      CollectFirst(map[], m, DomainList(d), Prefixes("/"), q, n);
      forall x, y | x in DomainList(d) && y in Prefixes("/") ensures !Hit(m, x, y, n, q) { }
    }
  }

  /** GetCookies agrees with the scan, for every store, path and query, exactly on the
      hosts whose inner runs of dots all have odd length. */
  ghost predicate AgreesAlways(d: string) {
    forall m: DomainMap, p: string, q: Query, n: string | WellFiled(Flat(m)) && PathAdjusted(p) ::
      n in Collect(map[], m, DomainList(d), Prefixes(p), q) <==> exists k: Key :: k.name == n && Found(m, d, p, q, k)
  }

  lemma ScanAgreesIff(d: string)
    requires DomainAdjusted(d)
    ensures AgreesAlways(d) <==> OddRuns(d)
  {
    if OddRuns(d) {
      forall m: DomainMap, p: string, q: Query, n: string | WellFiled(Flat(m)) && PathAdjusted(p)
        ensures n in Collect(map[], m, DomainList(d), Prefixes(p), q) <==> exists k: Key :: k.name == n && Found(m, d, p, q, k)
      {
        GetCookiesIsScan(m, d, p, q, n);
      }
    } else {
      var k :| 1 < k < |d| && d[k - 1] == DOMAIN_SEP && d[k] != DOMAIN_SEP && DotsBefore(d, k) % 2 == 0;
      var q := Query(true, true, 0);
      EvenRunMisses(d, k, q);
      var c := Cookie("n", "v", d[k..], "/", -1, 0, 0, SS_NONE);
      assert KeyOf(c).name == "n" && "n" !in Collect(map[], Single(c), DomainList(d), Prefixes("/"), q);
    }
  }

  /** Removing the expired cookies does not change what any query of that time or later
      finds. */
  lemma RemovalIsInvisible(m: DomainMap, m': DomainMap, domain: Option<string>, path: Option<string>, now: int,
      d: string, p: string, q: Query, n: string)
    requires PathAdjusted(p) && q.now >= now
    requires Flat(m') == FlatRemoveExpired(Flat(m), domain, path, now)
    ensures SameName(Collect(map[], m, DomainList(d), Prefixes(p), q), Collect(map[], m', DomainList(d), Prefixes(p), q), n)
  {
    forall x, y ensures Hit(m, x, y, n, q) <==> Hit(m', x, y, n, q)
      ensures Hit(m, x, y, n, q) ==> Names(m, x, y)[n] == Names(m', x, y)[n]
    {
      var k := Key(x, y, n);
      assert Hit(m, x, y, n, q) <==> k in Flat(m) && Admits(q, Flat(m)[k]);
      assert Hit(m', x, y, n, q) <==> k in Flat(m') && Admits(q, Flat(m')[k]);
    }
    SameCollect(map[], map[], m, m', DomainList(d), Prefixes(p), q, n);
  }

  ghost predicate SameHits(m: DomainMap, m': DomainMap, n: string, q: Query) {
    forall x, y ::
      && (Hit(m, x, y, n, q) <==> Hit(m', x, y, n, q))
      && (Hit(m, x, y, n, q) ==> Names(m, x, y)[n] == Names(m', x, y)[n])
  }

  predicate SameName(r: CookieSet, r': CookieSet, n: string) { (n in r <==> n in r') && (n in r ==> r[n] == r'[n]) }

  lemma {:induction false} SamePaths(acc: CookieSet, acc': CookieSet, m: DomainMap, m': DomainMap,
      d: string, paths: seq<string>, q: Query, n: string)
    requires SameHits(m, m', n, q) && SameName(acc, acc', n)
    ensures SameName(CollectPaths(acc, m, d, paths, q), CollectPaths(acc', m', d, paths, q), n)
    decreases |paths|
  {
    if paths != [] {
      assert Hit(m, d, paths[0], n, q) <==> Hit(m', d, paths[0], n, q);
      var next, next' := AddSet(acc, Names(m, d, paths[0]), q), AddSet(acc', Names(m', d, paths[0]), q);
      assert SameName(next, next', n);
      SamePaths(next, next', m, m', d, paths[1..], q, n);
    }
  }

  lemma {:induction false} SameCollect(acc: CookieSet, acc': CookieSet, m: DomainMap, m': DomainMap,
      domains: seq<string>, paths: seq<string>, q: Query, n: string)
    requires SameHits(m, m', n, q) && SameName(acc, acc', n)
    ensures SameName(Collect(acc, m, domains, paths, q), Collect(acc', m', domains, paths, q), n)
    decreases |domains|
  {
    if domains != [] {
      SamePaths(acc, acc', m, m', domains[0], paths, q, n);
      SameCollect(CollectPaths(acc, m, domains[0], paths, q), CollectPaths(acc', m', domains[0], paths, q), m, m',
                  domains[1..], paths, q, n);
    }
  }
}
