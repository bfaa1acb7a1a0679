/** Cookies, the adjustment of their domains and paths, and matching. Strings are C
    strings: the characters before the terminating NUL. */
module Cookies {

  datatype Option<T> = None | Some(value: T)

  datatype SameSite = SS_NONE | SS_STRICT | SS_LAX

  /** `expires` is a time, or negative for a transient cookie. */
  datatype Cookie = Cookie(
    name: string,
    value: string,
    domain: string,
    path: string,
    expires: int,
    httpOnly: int,
    secure: int,
    sameSite: SameSite)
  {
    predicate IsTransient() { expires < 0 }
    predicate IsExpired(now: int) { !IsTransient() && expires <= now }
    predicate IsValid() { name != "" && domain != "" && path != "" }
  }

  const DOMAIN_SEP := '.'
  const PATH_SEP := '/'

  // ---------------------------------------------------------------- adjustment

  function LowerChar(c: char): char { if 'A' <= c <= 'Z' then c + ' ' else c }

  function Lower(s: string): (r: string)
    ensures |r| == |s|
  {
    if s == "" then "" else [LowerChar(s[0])] + Lower(s[1..])
  }

  function TrimDots(s: string): string {
    if s != "" && s[0] == DOMAIN_SEP then TrimDots(s[1..]) else s
  }

  function AdjustDomain(s: string): string { Lower(TrimDots(s)) }

  /** One past the last '/', or 0. */
  function DirectoryEnd(s: string): (n: nat)
    ensures n <= |s|
    ensures n > 0 ==> s[n - 1] == PATH_SEP
  {
    if s == "" then 0 else if s[|s| - 1] == PATH_SEP then |s| else DirectoryEnd(s[..|s| - 1])
  }

  /** The directory of a path, led by '/'; empty if the path names none. */
  function AdjustPath(s: string): string {
    var directory := s[..DirectoryEnd(s)];
    if directory != "" && directory[0] != PATH_SEP then [PATH_SEP] + directory else directory
  }

  lemma {:induction false} LowerAt(s: string, i: nat)
    requires i < |s|
    ensures Lower(s)[i] == LowerChar(s[i])
    decreases s
  {
    if i > 0 { LowerAt(s[1..], i - 1); }
  }

  lemma {:induction false} LowerTwice(s: string)
    ensures Lower(Lower(s)) == Lower(s)
    decreases s
  {
    if s != "" {
      assert Lower(s)[1..] == Lower(s[1..]);
      LowerTwice(s[1..]);
    }
  }

  lemma {:induction false} LowerSuffix(s: string, k: nat)
    requires k <= |s|
    ensures Lower(s[k..]) == Lower(s)[k..]
  {
    forall i | 0 <= i < |s| - k ensures Lower(s[k..])[i] == Lower(s)[k..][i] {
      LowerAt(s[k..], i);
      LowerAt(s, k + i);
    }
  }

  lemma {:induction false} Trimmed(s: string)
    ensures TrimDots(s) == "" || TrimDots(s)[0] != DOMAIN_SEP
    decreases s
  {
    if s != "" && s[0] == DOMAIN_SEP { Trimmed(s[1..]); }
  }

  /** An adjusted domain is in lower case and does not start with a dot. */
  predicate DomainAdjusted(d: string) { d != "" && d[0] != DOMAIN_SEP && Lower(d) == d }

  predicate PathAdjusted(p: string) { p != "" && p[0] == PATH_SEP && p[|p| - 1] == PATH_SEP }

  /** The adjusted domains are the values of AdjustDomain, and its fixed points. */
  lemma AdjustDomainFixes(s: string)
    ensures AdjustDomain(s) != "" ==> DomainAdjusted(AdjustDomain(s))
    ensures DomainAdjusted(s) ==> AdjustDomain(s) == s
    ensures AdjustDomain(AdjustDomain(s)) == AdjustDomain(s)
  {
    Trimmed(s);
    LowerTwice(TrimDots(s));
  }

  /** The same for paths. */
  lemma AdjustPathFixes(s: string)
    ensures AdjustPath(s) != "" ==> PathAdjusted(AdjustPath(s))
    ensures PathAdjusted(s) ==> AdjustPath(s) == s
    ensures AdjustPath(AdjustPath(s)) == AdjustPath(s)
  {
    var p := AdjustPath(s);
    if p != "" {
      assert p[|p| - 1] == PATH_SEP;
      assert DirectoryEnd(p) == |p|;
    }
    if PathAdjusted(s) { assert DirectoryEnd(s) == |s|; }
  }

  const UPPER := "ABCDEFGHIJKLMNOPQRSTUVWXYZ"
  const LOWER := "abcdefghijklmnopqrstuvwxyz"

  /** Capital letters become the small ones, and other characters stay. */
  lemma LowerTable(c: char)
    ensures forall i | 0 <= i < 26 && c == UPPER[i] :: LowerChar(c) == LOWER[i]
    ensures c !in UPPER ==> LowerChar(c) == c
  {
    if 'A' <= c <= 'Z' { assert UPPER[c as int - 'A' as int] == c; }
  }

  /** What AdjustDomain makes of any string: it drops the dots in front, all of them and no
      more, and lowers every character. */
  lemma {:induction false} AdjustDomainIs(s: string, dots: nat)
    requires dots <= |s| && (forall i | 0 <= i < dots :: s[i] == DOMAIN_SEP) && (dots < |s| ==> s[dots] != DOMAIN_SEP)
    ensures |AdjustDomain(s)| == |s| - dots
    ensures forall i | 0 <= i < |s| - dots :: AdjustDomain(s)[i] == LowerChar(s[dots + i])
    decreases s
  {
    if dots > 0 {
      AdjustDomainIs(s[1..], dots - 1);
    } else {
      forall i | 0 <= i < |s| ensures AdjustDomain(s)[i] == LowerChar(s[i]) { LowerAt(s, i); }
    }
  }

  /** What AdjustPath makes of any string: nothing without a '/', and otherwise all up to the
      last one, with one put in front if none is there. */
  lemma AdjustPathIs(s: string, end: nat)
    requires end <= |s| && (end > 0 ==> s[end - 1] == PATH_SEP) && forall i | end <= i < |s| :: s[i] != PATH_SEP
    ensures AdjustPath(s) == if end == 0 then "" else if s[0] == PATH_SEP then s[..end] else [PATH_SEP] + s[..end]
  {
    DirectoryEndIs(s, end);
  }

  lemma {:induction false} DirectoryEndIs(s: string, end: nat)
    requires end <= |s| && (end > 0 ==> s[end - 1] == PATH_SEP) && forall i | end <= i < |s| :: s[i] != PATH_SEP
    ensures DirectoryEnd(s) == end
    decreases s
  {
    if s != "" && end < |s| { DirectoryEndIs(s[..|s| - 1], end); }
  }

  // ---------------------------------------------------------------- matching

  /** CCookie::Match */
  predicate Match(c: Cookie, domain: string, path: string, http: bool, secure: bool) {
    && |c.domain| <= |domain| && Lower(domain[|domain| - |c.domain|..]) == Lower(c.domain)
    && (|domain| > |c.domain| ==> domain[|domain| - |c.domain| - 1] == DOMAIN_SEP)
    && c.path <= path
    && (http || c.httpOnly == 0) && (secure || c.secure == 0)
  }

  // ---------------------------------------------------------------- the lookup lists

  /** Where the suffixes of `d` tried after the whole start: the scan from position `t`.
      The character a suffix starts with is not itself looked at. */
  function ScanFrom(d: string, t: nat): seq<nat>
    decreases |d| - t
  {
    if t + 1 >= |d| then []
    else if d[t + 1] != DOMAIN_SEP then ScanFrom(d, t + 1)
    else if t + 2 >= |d| then []
    else [t + 2] + ScanFrom(d, t + 2)
  }

  function Suffixes(d: string): seq<nat> { [0] + ScanFrom(d, 0) }

  /** The '/'-terminated proper prefixes of `p` that end before position `t`, longest first. */
  function PrefixesFrom(p: string, t: nat): seq<string>
    requires t <= |p|
  {
    if t == 0 then []
    else if p[t - 1] == PATH_SEP then [p[..t]] + PrefixesFrom(p, t - 1)
    else PrefixesFrom(p, t - 1)
  }

  function Prefixes(p: string): seq<string>
    requires p != ""
  {
    [p] + PrefixesFrom(p, |p| - 1)
  }

  /** The dots that end just before position `k`, the first character not counted. */
  function DotsBefore(d: string, k: nat): nat
    requires k <= |d|
  {
    if k > 1 && d[k - 1] == DOMAIN_SEP then 1 + DotsBefore(d, k - 1) else 0
  }

  /** A suffix is tried exactly when an odd number of dots stands before it. */
  lemma {:induction false} ScannedIff(d: string, t: nat, k: nat)
    requires t < k < |d| && DotsBefore(d, t + 1) % 2 == 0
    ensures k in ScanFrom(d, t) <==> DotsBefore(d, k) % 2 == 1
    decreases |d| - t
  {
    if d[t + 1] != DOMAIN_SEP {
      if t + 1 < k { ScannedIff(d, t + 1, k); } else { ScanBound(d, t); }
    } else if t + 2 < |d| {
      if t + 2 < k { ScannedIff(d, t + 2, k); } else if k == t + 1 { ScanBound(d, t); } else { }
    }
  }

  lemma {:induction false} ScanBound(d: string, t: nat)
    ensures forall k | k in ScanFrom(d, t) :: t + 1 < k < |d|
    ensures forall i, j | 0 <= i < j < |ScanFrom(d, t)| :: ScanFrom(d, t)[i] < ScanFrom(d, t)[j]
    decreases |d| - t
  {
    if t + 1 < |d| {
      if d[t + 1] != DOMAIN_SEP {
        ScanBound(d, t + 1);
      } else if t + 2 < |d| {
        ScanBound(d, t + 2);
        var rest := ScanFrom(d, t + 2);
        assert ScanFrom(d, t) == [t + 2] + rest;
        forall j | 0 <= j < |rest| ensures rest[j] > t + 2 { assert rest[j] in rest; }
      }
    }
  }

  lemma {:induction false} PrefixesBound(p: string, t: nat)
    requires t <= |p|
    ensures forall q | q in PrefixesFrom(p, t) :: 0 < |q| <= t
    ensures forall i, j | 0 <= i < j < |PrefixesFrom(p, t)| :: |PrefixesFrom(p, t)[i]| > |PrefixesFrom(p, t)[j]|
    decreases t
  {
    if t > 0 { PrefixesBound(p, t - 1); }
  }

  lemma {:induction false} PrefixesFromIff(p: string, t: nat, q: string)
    requires t <= |p|
    ensures q in PrefixesFrom(p, t) <==> 0 < |q| <= t && q <= p && q[|q| - 1] == PATH_SEP
    decreases t
  {
    if t > 0 {
      PrefixesFromIff(p, t - 1, q);
      if p[t - 1] == PATH_SEP && q <= p && |q| == t { assert q == p[..t]; }
    }
  }

  /** The paths tried are exactly the '/'-terminated prefixes, longest first. */
  lemma PrefixesIff(p: string, q: string)
    requires PathAdjusted(p)
    ensures q in Prefixes(p) <==> q != "" && q <= p && q[|q| - 1] == PATH_SEP
    ensures forall i, j | 0 <= i < j < |Prefixes(p)| :: |Prefixes(p)[i]| > |Prefixes(p)[j]|
  {
    PrefixesFromIff(p, |p| - 1, q);
    PrefixesBound(p, |p| - 1);
    if q <= p && |q| == |p| { assert q == p; }
  }

  /** Every run of dots inside `d` has odd length. */
  ghost predicate OddRuns(d: string) {
    forall k | 1 < k < |d| && d[k - 1] == DOMAIN_SEP && d[k] != DOMAIN_SEP :: DotsBefore(d, k) % 2 == 1
  }
}
