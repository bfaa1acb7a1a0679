/** Base64 of RFC 4648 section 4, as the library writes and reads it: into caller's arrays,
    with lengths in DWORDs. `x & (2^k - 1)` is written `x % 2^k`, and shifts as products
    and quotients (Bits.AndMask, Bits.OrDisjoint). */
module Base64 {
  import opened Bytes

  const DWORD := 0x1_0000_0000

  // ---------------------------------------------------------------- the tables

  /** CODES */
  function Code(k: nat): Byte
    requires k < 64
  {
    if k < 26 then (k + 65) as Byte             // 'A' to 'Z'
    else if k < 52 then (k - 26 + 97) as Byte   // 'a' to 'z'
    else if k < 62 then (k - 52 + 48) as Byte   // '0' to '9'
    else if k == 62 then 43 else 47             // '+', '/'
  }

  const PAD: Byte := 61                         // '='

  /** MAP: a sextet, 253 for white space, 254 for '=', 255 for anything else. */
  function Map(b: Byte): (v: nat)
    ensures v < 64 || 253 <= v <= 255
  {
    if 65 <= b <= 90 then b as nat - 65
    else if 97 <= b <= 122 then b as nat - 97 + 26
    else if 48 <= b <= 57 then b as nat - 48 + 52
    else if b == 43 then 62
    else if b == 47 then 63
    else if b == PAD then 254
    else if b == 10 || b == 13 || b == 32 then 253
    else 255
  }

  const UPPER := "ABCDEFGHIJKLMNOPQRSTUVWXYZ"
  const LOWER := "abcdefghijklmnopqrstuvwxyz"
  const DIGITS := "0123456789"

  /** The codes are the alphabet of RFC 4648, table 1, in its order. */
  lemma CodesAreAlphabet()
    ensures forall k | 0 <= k < 26 :: Code(k) as int == UPPER[k] as int && Code(k + 26) as int == LOWER[k] as int
    ensures forall k | 0 <= k < 10 :: Code(k + 52) as int == DIGITS[k] as int
    ensures Code(62) as int == '+' as int && Code(63) as int == '/' as int && PAD as int == '=' as int
  {
    assert forall k | 0 <= k < 26 :: UPPER[k] as int == 'A' as int + k;
    assert forall k | 0 <= k < 26 :: LOWER[k] as int == 'a' as int + k;
    assert forall k | 0 <= k < 10 :: DIGITS[k] as int == '0' as int + k;
  }

  /** The symbols of three bytes. */
  function First(a: Byte): Byte { Code(a as nat / 4) }
  function Second(a: Byte, b: Byte): Byte { Code(a as nat % 4 * 16 + b as nat / 16) }
  function Third(b: Byte, c: Byte): Byte { Code(b as nat % 16 * 4 + c as nat / 64) }
  function Fourth(c: Byte): Byte { Code(c as nat % 64) }

  // ---------------------------------------------------------------- the encoding

  /** The byte at `i`, or 0 past the end. */
  function At(s: Item, i: nat): nat { if i < |s| then s[i] as nat else 0 }

  /** The j-th sextet of the q-th group of three bytes. */
  function Sextet(s: Item, q: nat, j: nat): (v: nat)
    requires j < 4
    ensures v < 64
  {
    var a, b, c := At(s, 3 * q), At(s, 3 * q + 1), At(s, 3 * q + 2);
    if j == 0 then a / 4 else if j == 1 then a % 4 * 16 + b / 16 else if j == 2 then b % 16 * 4 + c / 64 else c % 64
  }

  /** The position is filled up with '='. */
  predicate Padded(s: Item, q: nat, j: nat) { (j == 2 && 3 * q + 1 >= |s|) || (j == 3 && 3 * q + 2 >= |s|) }

  function Symbol(s: Item, q: nat, j: nat): Byte
    requires j < 4
  {
    if Padded(s, q, j) then PAD else Code(Sextet(s, q, j))
  }

  /** How many groups of three hold `n` bytes: (n + 2) / 3. */
  function Groups(n: nat): (g: nat)
    ensures n <= 3 * g < n + 3
  {
    if n == 0 then 0 else if n <= 3 then 1 else 1 + Groups(n - 3)
  }

  function Quad(s: Item, q: nat): (r: Item)
    ensures |r| == 4
  {
    [Symbol(s, q, 0), Symbol(s, q, 1), Symbol(s, q, 2), Symbol(s, q, 3)]
  }

  /** The first `q` groups, four symbols each. */
  function Quads(s: Item, q: nat): (e: Item)
    ensures |e| == 4 * q
  {
    if q == 0 then [] else Quads(s, q - 1) + Quad(s, q - 1)
  }

  function Encoded(s: Item): Item { Quads(s, Groups(|s|)) }

  lemma {:induction false} QuadsAt(s: Item, m: nat, q: nat, x: nat)
    requires q < m && x < 4
    ensures Quads(s, m)[4 * q + x] == Symbol(s, q, x)
    decreases m
  {
    if q < m - 1 { QuadsAt(s, m - 1, q, x); }
  }

  /** How many of its symbols are not padding: a byte more than a group makes one more. */
  function Solid(n: nat): nat { n + Groups(n) }

  /** The encoding, with its padding or without. */
  predicate Encodes(e: Item, s: Item) { e == Encoded(s) || e == Encoded(s)[..Solid(|s|)] }

  // ---------------------------------------------------------------- bounds

  function EncodeBound(n: nat): nat { 4 * ((n + 2) % DWORD / 3) % DWORD }

  lemma ThirdIs(m: nat, g: nat)
    requires m <= 3 * g + 2 && 3 * g <= m
    ensures m / 3 == g
  {
  }

  /** The guessed length is the true one exactly while that fits a DWORD. */
  lemma EncodeBoundIff(n: nat)
    requires n < DWORD
    ensures EncodeBound(n) == 4 * Groups(n) <==> n <= 0xBFFF_FFFD
    ensures n <= 0xBFFF_FFFD <==> 4 * Groups(n) < DWORD
  {
    var g := Groups(n);
    if n + 2 < DWORD {
      ThirdIs(n + 2, g);
      assert EncodeBound(n) == 4 * g % DWORD;
    } else {
      assert (n + 2) % DWORD / 3 == 0;
    }
  }

  /** How much of a text stands before its padding, by its last two bytes. */
  function Cut(e: Item): (n: nat)
    requires |e| >= 2
    ensures n <= |e|
  {
    if e[|e| - 2] == PAD then |e| - 2 else if e[|e| - 1] == PAD then |e| - 1 else |e|
  }

  /** What a length of text without padding decodes to. */
  function Room(n: nat): nat { 3 * (n / 4) + (if n % 4 == 2 then 1 else if n % 4 == 3 then 2 else 0) }

  function DecodeBound(e: Item): nat { if |e| < 2 then 0 else Room(Cut(e)) }

  lemma CodesAreNotPad(k: nat)
    requires k < 64
    ensures Code(k) != PAD && Map(Code(k)) == k
  {
  }

  /** The other way round: a byte that stands for a sextet is that sextet's code. */
  lemma MapIsCode(b: Byte)
    requires Map(b) < 64
    ensures Code(Map(b)) == b
  {
  }

  /** Line feed, carriage return, blank. */
  predicate IsSpace(b: Byte) { b == 10 || b == 13 || b == 32 }

  /** Neither a code nor padding nor white space. */
  predicate Foreign(b: Byte) { b != PAD && !IsSpace(b) && forall k | 0 <= k < 64 :: Code(k) != b }

  lemma MapKinds(b: Byte)
    ensures Map(b) == 253 <==> IsSpace(b)
    ensures Map(b) == 254 <==> b == PAD
    ensures Map(b) == 255 <==> Foreign(b)
  {
    if Map(b) < 64 {
      MapIsCode(b);
    } else {
      forall k | 0 <= k < 64 ensures Code(k) != b { CodesAreNotPad(k); }
    }
  }

  lemma SymbolIs(s: Item, q: nat, x: nat)
    requires x < 4
    ensures Symbol(s, q, x) == PAD <==> Padded(s, q, x)
    ensures Map(Symbol(s, q, x)) == if Padded(s, q, x) then 254 else Sextet(s, q, x)
  {
    CodesAreNotPad(Sextet(s, q, x));
  }

  lemma PaddedIff(s: Item, q: nat, x: nat, g: nat)
    requires |s| <= 3 * g < |s| + 3 && q < g && x < 4
    ensures Padded(s, q, x) <==> 4 * q + x >= |s| + g
  {
    if q < g - 1 { assert 3 * q + 3 <= |s|; }
  }

  lemma PadIff(s: Item, q: nat, x: nat)
    requires q < Groups(|s|) && x < 4
    ensures Padded(s, q, x) <==> 4 * q + x >= Solid(|s|)
    ensures Encoded(s)[4 * q + x] == PAD <==> 4 * q + x >= Solid(|s|)
    ensures Map(Encoded(s)[4 * q + x]) == if 4 * q + x >= Solid(|s|) then 254 else Sextet(s, q, x)
  {
    SymbolIs(s, q, x);
    PaddedIff(s, q, x, Groups(|s|));
    QuadsAt(s, Groups(|s|), q, x);
  }

  lemma BoundIs3(m: nat, t: nat, r: nat)
    requires r < 3 && m == 4 * t + (if r == 0 then 0 else r + 1)
    ensures Room(m) == 3 * t + r
  {
  }

  lemma RoomGrows(m: nat, n: nat)
    requires m <= n
    ensures Room(m) <= Room(n)
  {
    assert m / 4 <= n / 4;
    if m / 4 == n / 4 { assert m % 4 <= n % 4; }
  }

  lemma RoomOfSolid(n: nat)
    ensures Room(Solid(n)) == n
  {
    var g := Groups(n);
    if n > 0 {
      var t := if n == 3 * g then g else g - 1;
      BoundIs3(Solid(n), t, n - 3 * t);
    }
  }

  /** The guessed length of what an encoding decodes to is right, with and without padding. */
  lemma DecodeBoundIs(e: Item, s: Item)
    requires Encodes(e, s)
    ensures DecodeBound(e) == |s|
  {
    if s != [] {
      CutIsSolid(e, s);
      RoomOfSolid(|s|);
    }
  }

  lemma CutIsSolid(e: Item, s: Item)
    requires Encodes(e, s) && s != []
    ensures |e| >= 2 && Cut(e) == Solid(|s|)
  {
    var g := Groups(|s|);
    PadIff(s, g - 1, 0);
    PadIff(s, g - 1, 1);
    PadIff(s, g - 1, 2);
    PadIff(s, g - 1, 3);
  }

  // ---------------------------------------------------------------- encoding

  /** Returns 0, or -5 and the length needed. The caller's length is at most the array's;
      with room to spare a NUL is added. */
  method Encode(src: array<Byte>, dest: array<Byte>, destLen: nat) returns (rc: int, newLen: nat)
    requires src.Length <= 0xBFFF_FFFD && destLen <= dest.Length && src != dest
    modifies dest
    ensures destLen < 4 * Groups(src.Length) ==>
      rc == -5 && newLen == 4 * Groups(src.Length) && dest[..] == old(dest[..])
    ensures destLen >= 4 * Groups(src.Length) ==>
      rc == 0 && newLen == 4 * Groups(src.Length) && dest[..newLen] == Encoded(src[..])
    ensures destLen > 4 * Groups(src.Length) ==> dest[newLen] == 0
  {
    var n := src.Length;
    var leven := 3 * (n / 3);
    var realLen := GuessEncodeBound(n);
    if destLen < realLen {
      return -5, realLen;
    }
    ghost var s, q, thirds := src[..], 0, n / 3;
    var p, i := 0, 0;
    while i < leven
      invariant i == 3 * q && p == 4 * q && q <= thirds && dest[..p] == Quads(s, q)
    {
      GroupsAre(n, q);
      FullQuad(s, q);
      PutFour(dest, p, First(src[i]), Second(src[i], src[i + 1]), Third(src[i + 1], src[i + 2]), Fourth(src[i + 2]));
      p := p + 4;
      i := i + 3;
      q := q + 1;
    }
    GroupsAre(n, q);
    if i < n {
      PutLast(src, i, dest, p, q);
      p := p + 4;
      q := q + 1;
    }
    if destLen > realLen {
      ghost var done := dest[..p];
      dest[p] := 0;
      assert dest[..p] == done;
    }
    return 0, realLen;
  }

  /** The one or two bytes left over. */
  method PutLast(src: array<Byte>, i: nat, dest: array<Byte>, p: nat, ghost q: nat)
    requires src != dest && i < src.Length <= i + 2 && p + 4 <= dest.Length
    requires i == 3 * q && dest[..p] == Quads(src[..], q)
    modifies dest
    ensures dest[..p + 4] == Quads(src[..], q + 1)
  {
    var a := src[i];
    var b: Byte := if i + 1 < src.Length then src[i + 1] else 0;
    LastQuad(src[..], q);
    PutFour(dest, p, First(a), Second(a, b), if i + 1 < src.Length then Third(b, 0) else PAD, PAD);
  }

  method GuessEncodeBound(n: nat) returns (bound: nat)
    requires n <= 0xBFFF_FFFD
    ensures bound == 4 * Groups(n)
  {
    EncodeBoundIff(n);
    bound := EncodeBound(n);
  }

  lemma GroupsAre(n: nat, q: nat)
    ensures 3 * q < n <==> q < Groups(n)
    ensures 3 * q <= n < 3 * q + 3 ==> Groups(n) == if 3 * q == n then q else q + 1
  {
  }

  lemma FullQuad(s: Item, q: nat)
    requires 3 * q + 2 < |s|
    ensures var a, b, c := s[3 * q], s[3 * q + 1], s[3 * q + 2];
      Quads(s, q + 1) == Quads(s, q) + [First(a), Second(a, b), Third(b, c), Fourth(c)]
  {
  }

  lemma LastQuad(s: Item, q: nat)
    requires 3 * q < |s| <= 3 * q + 2
    ensures var a, b: Byte := s[3 * q], if 3 * q + 1 < |s| then s[3 * q + 1] else 0;
      Quads(s, q + 1) == Quads(s, q) + [First(a), Second(a, b), if 3 * q + 1 < |s| then Third(b, 0) else PAD, PAD]
  {
  }

  /** Four times *p++ = ... */
  method PutFour(dest: array<Byte>, p: nat, w: Byte, x: Byte, y: Byte, z: Byte)
    requires p + 4 <= dest.Length
    modifies dest
    ensures dest[..p + 4] == old(dest[..p]) + [w, x, y, z]
  {
    dest[p], dest[p + 1], dest[p + 2], dest[p + 3] := w, x, y, z;
  }

  // ---------------------------------------------------------------- decoding

  /** The first `x` sextets of a group in one word; padding counts as 0. */
  function Word(s: Item, q: nat, x: nat): (z: nat)
    requires x <= 4
    ensures x == 0 ==> z == 0
    ensures x == 1 ==> z < 64
    ensures x == 2 ==> z < 4096
    ensures x == 3 ==> z < 262144
    ensures x == 4 ==> z < 16777216
  {
    if x == 0 then 0 else Word(s, q, x - 1) * 64 + (if Padded(s, q, x - 1) then 0 else Sextet(s, q, x - 1))
  }

  /** Four sextets cut out of three bytes make up their word again. */
  lemma {:induction false} Sextets(a: nat, b: nat, c: nat)
    requires a < 256 && b < 256 && c < 256
    ensures ((a / 4 * 64 + (a % 4 * 16 + b / 16)) * 64 + (b % 16 * 4 + c / 64)) * 64 + c % 64 == a * 65536 + b * 256 + c
  {
    assert a == 4 * (a / 4) + a % 4 && b == 16 * (b / 16) + b % 16 && c == 64 * (c / 64) + c % 64;
  }

  lemma {:induction false} BytesOfWord(a: nat, b: nat, c: nat)
    requires a < 256 && b < 256 && c < 256
    ensures var w := a * 65536 + b * 256 + c; w / 65536 % 256 == a && w / 256 % 256 == b && w % 256 == c
  {
    var w := a * 65536 + b * 256 + c;
    assert w / 256 == a * 256 + b;
    assert w / 65536 == a;
  }

  lemma {:induction false} WordIs(s: Item, q: nat)
    requires 3 * q < |s|
    ensures var w := Word(s, q, 4);
      w / 65536 % 256 == At(s, 3 * q) && w / 256 % 256 == At(s, 3 * q + 1) && w % 256 == At(s, 3 * q + 2)
  {
    var a, b, c := At(s, 3 * q), At(s, 3 * q + 1), At(s, 3 * q + 2);
    Sextets(a, b, c);
    BytesOfWord(a, b, c);
    WordUnfolds(s, q);
  }

  /** Padding stands where the sextet is 0. */
  lemma {:induction false} WordUnfolds(s: Item, q: nat)
    ensures Word(s, q, 4)
         == ((Sextet(s, q, 0) * 64 + Sextet(s, q, 1)) * 64 + Sextet(s, q, 2)) * 64 + Sextet(s, q, 3)
  {
    assert Word(s, q, 1) == Sextet(s, q, 0);
    assert Word(s, q, 2) == Sextet(s, q, 0) * 64 + Sextet(s, q, 1);
    assert Padded(s, q, 2) ==> Sextet(s, q, 2) == 0;
    assert Padded(s, q, 3) ==> Sextet(s, q, 3) == 0;
    assert Word(s, q, 3) == Word(s, q, 2) * 64 + Sextet(s, q, 2);
  }

  /** What a step of the loop finds: the symbol's value, and whether it is padding, whether
      written or left out. */
  lemma {:induction false} SymbolFound(e: Item, s: Item, q: nat, x: nat)
    requires Encodes(e, s) && q < Groups(|s|) && x < 4
    ensures Padded(s, q, x) <==> 4 * q + x >= Solid(|s|)
    ensures 4 * q + x < |e| ==> Map(e[4 * q + x]) == if 4 * q + x >= Solid(|s|) then 254 else Sextet(s, q, x)
    ensures 4 * q + x >= |e| ==> 4 * q + x >= Solid(|s|)
  {
    PadIff(s, q, x);
  }

  function Min(a: nat, b: nat): nat { if a < b then a else b }

  /** Padding met among the first `k` symbols. */
  function Pads(n: nat, k: nat): nat { if k > Solid(n) then k - Solid(n) else 0 }

  /** How many bytes the q-th group holds, by the padding met at its end. */
  lemma {:induction false} GroupSize(n: nat, q: nat)
    requires q < Groups(n)
    ensures Pads(n, 4 * q + 4) == (if 3 * q + 2 < n then 0 else if 3 * q + 1 < n then 1 else 2)
    ensures Min(3 * q + 3, n) == 3 * q + 3 - Pads(n, 4 * q + 4) && 3 * q < n
  {
  }

  /** The text without its white space. */
  function Stripped(e: Item): (t: Item)
    ensures |t| <= |e|
  {
    if e == [] then [] else Stripped(e[..|e| - 1]) + if IsSpace(e[|e| - 1]) then [] else [e[|e| - 1]]
  }

  lemma {:induction false} StrippedNext(e: Item, i: nat)
    requires i < |e|
    ensures Stripped(e[..i + 1]) == Stripped(e[..i]) + if IsSpace(e[i]) then [] else [e[i]]
  {
    assert e[..i + 1][..i] == e[..i];
  }

  lemma {:induction false} StrippedFirst(e: Item, i: nat, j: nat)
    requires i <= j <= |e|
    ensures Stripped(e[..i]) <= Stripped(e[..j])
    decreases j
  {
    if i < j {
      StrippedFirst(e, i, j - 1);
      StrippedNext(e, j - 1);
    }
  }

  /** Where a byte that is no white space stands in the stripped text. */
  lemma {:induction false} StrippedAt(e: Item, i: nat)
    requires i < |e| && !IsSpace(e[i])
    ensures var k := |Stripped(e[..i])|; k < |Stripped(e)| && Stripped(e)[k] == e[i]
  {
    StrippedNext(e, i);
    StrippedFirst(e, i + 1, |e|);
    assert e[..|e|] == e;
  }

  lemma {:induction false} StrippedSame(e: Item)
    requires forall i | 0 <= i < |e| :: !IsSpace(e[i])
    ensures Stripped(e) == e
    decreases e
  {
    if e != [] { StrippedSame(e[..|e| - 1]); }
  }

  /** An encoding holds no white space and nothing foreign. */
  lemma {:induction false} SymbolsAreKnown(e: Item, s: Item, i: nat)
    requires Encodes(e, s) && i < |e|
    ensures Map(e[i]) < 64 || Map(e[i]) == 254
    ensures e[i] == PAD <==> i >= Solid(|s|)
  {
    PadIff(s, i / 4, i % 4);
    MapKinds(e[i]);
  }

  lemma {:induction false} EncodingIsBare(e: Item, s: Item)
    requires Encodes(e, s)
    ensures Stripped(e) == e
  {
    forall i | 0 <= i < |e| ensures !IsSpace(e[i]) {
      SymbolsAreKnown(e, s, i);
      MapKinds(e[i]);
    }
    StrippedSame(e);
  }

  /** White space only makes the guess larger. */
  lemma {:induction false} BoundIsEnough(e: Item, s: Item)
    requires Encodes(Stripped(e), s)
    ensures DecodeBound(e) >= |s|
  {
    if s != [] {
      CutIsSolid(Stripped(e), s);
      CutIsEnough(e, s);
      RoomGrows(Solid(|s|), Cut(e));
      RoomOfSolid(|s|);
    }
  }

  lemma {:induction false} CutIsEnough(e: Item, s: Item)
    requires Encodes(Stripped(e), s) && |e| >= 2
    ensures Cut(e) >= Solid(|s|)
  {
    if e[|e| - 2] == PAD {
      PadIsBehind(e, s, |e| - 2);
    } else if e[|e| - 1] == PAD {
      PadIsBehind(e, s, |e| - 1);
    } else {
      SolidIsShort(Stripped(e), s);
    }
  }

  lemma {:induction false} SolidIsShort(t: Item, s: Item)
    requires Encodes(t, s)
    ensures Solid(|s|) <= |t|
  {
  }

  lemma {:induction false} PadIsBehind(e: Item, s: Item, i: nat)
    requires Encodes(Stripped(e), s) && i < |e| && e[i] == PAD
    ensures i >= Solid(|s|)
  {
    var t, k := Stripped(e), |Stripped(e[..i])|;
    StrippedAt(e, i);
    assert t[k] == PAD && k <= i;
    PadStands(t, s, k);
  }

  lemma {:induction false} PadStands(t: Item, s: Item, k: nat)
    requires Encodes(t, s) && k < |t| && t[k] == PAD
    ensures k >= Solid(|s|)
  {
    SymbolsAreKnown(t, s, k);
  }

  /** How many bytes a full word gives while `g` is 3 less the padding met. */
  function Size(g: int): nat { if g > 2 then 3 else if g > 1 then 2 else 1 }

  function BytesIn(z: nat): (r: Item)
    ensures |r| == 3
  {
    [(z / 65536 % 256) as Byte, (z / 256 % 256) as Byte, (z % 256) as Byte]
  }

  /** Between two turns of the loop, for the encoding of `s` with white space in it: `x`
      symbols of group `q` are in the word `z`. */
  ghost predicate Decodes(e: Item, s: Item, i: nat, q: nat, x: nat, y: nat, z: nat, g: int) {
    && Encodes(Stripped(e), s) && i <= |e| && x < 4
    && q <= Groups(|s|) && (q == Groups(|s|) ==> x == 0)
    && (if i < |e| then 4 * q + x == |Stripped(e[..i])| else 4 * q + x >= |Stripped(e)|)
    && y == Min(3 * q, |s|) && z == Word(s, q, x) && g == 3 - Pads(|s|, 4 * q + x)
  }

  /** White space is passed over. */
  lemma {:induction false} SpacePassed(e: Item, s: Item, i: nat, q: nat, x: nat, y: nat, z: nat, g: int)
    requires Decodes(e, s, i, q, x, y, z, g) && i < |e| && IsSpace(e[i])
    ensures Decodes(e, s, i + 1, q, x, y, z, g)
  {
    StrippedNext(e, i);
    assert e[..|e|] == e;
  }

  /** A symbol, or padding that was left out, is shifted in. */
  lemma {:induction false} SymbolTaken(e: Item, s: Item, i: nat, q: nat, x: nat, y: nat, z: nat, g: int)
    requires Decodes(e, s, i, q, x, y, z, g) && (if i < |e| then !IsSpace(e[i]) else x != 0)
    ensures q < Groups(|s|)
    ensures var v := if i < |e| then Map(e[i]) else 254;
      && v == (if 4 * q + x >= Solid(|s|) then 254 else Sextet(s, q, x))
      && Word(s, q, x + 1) == z * 64 + (if v == 254 then 0 else v)
      && 3 - Pads(|s|, 4 * q + x + 1) == (if v == 254 then g - 1 else g)
    ensures x < 3 ==> Decodes(e, s, if i < |e| then i + 1 else i, q, x + 1, y, Word(s, q, x + 1), 3 - Pads(|s|, 4 * q + x + 1))
    ensures x == 3 ==> Decodes(e, s, if i < |e| then i + 1 else i, q + 1, 0, Min(3 * q + 3, |s|), 0, 3 - Pads(|s|, 4 * q + 4))
  {
    if i < |e| {
      StrippedAt(e, i);
      StrippedNext(e, i);
      assert e[..|e|] == e;
    }
    SymbolFound(Stripped(e), s, q, x);
  }

  /** A full word gives the bytes of its group. */
  lemma {:induction false} GroupGiven(s: Item, q: nat)
    requires q < Groups(|s|)
    ensures var g := 3 - Pads(|s|, 4 * q + 4);
      3 * q < |s| && Min(3 * q + 3, |s|) == 3 * q + Size(g) && BytesIn(Word(s, q, 4))[..Size(g)] == s[3 * q..Min(3 * q + 3, |s|)]
  {
    GroupSize(|s|, q);
    WordIs(s, q);
  }

  /** There is something foreign, but not among the first `i` bytes. */
  ghost predicate ForeignLater(e: Item, i: nat) {
    i <= |e| && (forall j | 0 <= j < i :: !Foreign(e[j])) && exists j | 0 <= j < |e| :: Foreign(e[j])
  }

  /** Between two turns of the loop, for either kind of text; `out` was written. */
  ghost predicate Underway(e: Item, s: Item, i: nat, q: nat, x: nat, y: nat, z: nat, g: int, out: Item) {
    && i <= |e| && x < 4 && |out| == y
    && if Encodes(Stripped(e), s) then Decodes(e, s, i, q, x, y, z, g) && out == s[..y]
       else ForeignLater(e, i) && 4 * q + x <= i && y <= 3 * q
  }

  lemma {:induction false} Begins(e: Item, s: Item)
    requires Encodes(Stripped(e), s) || ForeignLater(e, 0)
    ensures Underway(e, s, 0, 0, 0, 0, 0, 3, [])
  {
    assert e[..0] == [];
    if e == [] && Encodes(Stripped(e), s) { assert Stripped(e) == []; }
  }

  lemma {:induction false} SpaceTurn(e: Item, s: Item, i: nat, q: nat, x: nat, y: nat, z: nat, g: int, out: Item)
    requires Underway(e, s, i, q, x, y, z, g, out) && i < |e| && Map(e[i]) == 253
    ensures Underway(e, s, i + 1, q, x, y, z, g, out)
  {
    MapKinds(e[i]);
    if Encodes(Stripped(e), s) { SpacePassed(e, s, i, q, x, y, z, g); }
  }

  /** The value of the next symbol, and where the text stands after it. */
  function Value(e: Item, i: nat): nat { if i < |e| then Map(e[i]) else 254 }
  function After(e: Item, i: nat): nat { if i < |e| then i + 1 else i }

  lemma {:induction false} ForeignIsNoSymbol(e: Item, s: Item, i: nat)
    requires i < |e| && Map(e[i]) == 255
    ensures !Encodes(Stripped(e), s)
  {
    MapKinds(e[i]);
    if Encodes(Stripped(e), s) {
      StrippedAt(e, i);
      SymbolsAreKnown(Stripped(e), s, |Stripped(e[..i])|);
      assert false;
    }
  }

  /** A turn that takes a symbol... */
  lemma {:induction false} SymbolTurn(e: Item, s: Item, i: nat, q: nat, x: nat, y: nat, z: nat, g: int, out: Item, g': int, z': nat)
    requires Underway(e, s, i, q, x, y, z, g, out) && (i < |e| || x != 0) && x < 3
    requires Value(e, i) != 253 && Value(e, i) != 255
    requires g' == if Value(e, i) == 254 then g - 1 else g
    requires z' == z * 64 + if Value(e, i) == 254 then 0 else Value(e, i)
    ensures Underway(e, s, After(e, i), q, x + 1, y, z', g', out)
  {
    if i < |e| { MapKinds(e[i]); }
    if Encodes(Stripped(e), s) { SymbolTaken(e, s, i, q, x, y, z, g); }
  }

  lemma {:induction false} WordGiven(e: Item, s: Item, i: nat, q: nat, y: nat, z: nat, g: int, g': int, z': nat)
    requires Decodes(e, s, i, q, 3, y, z, g) && (i < |e| ==> !IsSpace(e[i]))
    requires g' == (if Value(e, i) == 254 then g - 1 else g) && z' == z * 64 + if Value(e, i) == 254 then 0 else Value(e, i)
    ensures 3 * q < |s| && y == 3 * q && y + Size(g') == Min(3 * q + 3, |s|) && BytesIn(z')[..Size(g')] == s[y..y + Size(g')]
    ensures Decodes(e, s, After(e, i), q + 1, 0, y + Size(g'), 0, g')
  {
    SymbolTaken(e, s, i, q, 3, y, z, g);
    GroupGiven(s, q);
    assert z' == Word(s, q, 4);
  }

  /** ...and one that completes a word, and writes its bytes. */
  lemma {:induction false} WordTurn(e: Item, s: Item, i: nat, q: nat, y: nat, z: nat, g: int, out: Item, g': int, z': nat)
    requires Underway(e, s, i, q, 3, y, z, g, out) && Value(e, i) != 253 && Value(e, i) != 255
    requires g' == if Value(e, i) == 254 then g - 1 else g
    requires z' == z * 64 + if Value(e, i) == 254 then 0 else Value(e, i)
    ensures y + Size(g') <= if Encodes(Stripped(e), s) then |s| else 3 * (|e| / 4)
    ensures Underway(e, s, After(e, i), q + 1, 0, y + Size(g'), 0, g', out + BytesIn(z')[..Size(g')])
  {
    if i < |e| { MapKinds(e[i]); }
    if Encodes(Stripped(e), s) {
      WordGiven(e, s, i, q, y, z, g, g', z');
      assert s[..y] + s[y..y + Size(g')] == s[..y + Size(g')];
    } else {
      WordPassed(e, i, q, y, g');
    }
  }

  lemma {:induction false} WordPassed(e: Item, i: nat, q: nat, y: nat, g: int)
    requires ForeignLater(e, i) && 4 * q + 3 <= i && y <= 3 * q
    ensures i < |e| && y + Size(g) <= 3 * (q + 1) <= 3 * (|e| / 4)
  {
  }

  lemma {:induction false} AllGiven(e: Item, s: Item, q: nat, y: nat, z: nat, g: int, out: Item)
    requires Underway(e, s, |e|, q, 0, y, z, g, out)
    ensures Encodes(Stripped(e), s) && y == |s| && out == s
  {
    if Encodes(Stripped(e), s) { Finished(s, |Stripped(e)|, q); }
  }

  /** Room for what is written: for either kind of text. */
  ghost predicate Fits(e: Item, s: Item, size: nat) { (if Encodes(Stripped(e), s) then |s| else 3 * (|e| / 4)) <= size }

  /** A word is complete: `z0` and `g0` were there before its last symbol. */
  method PutWord(dest: array<Byte>, y: nat, z: nat, g: int, ghost e: Item, ghost s: Item, ghost i: nat, ghost q: nat,
      ghost z0: nat, ghost g0: int) returns (y': nat)
    requires Fits(e, s, dest.Length) && y <= dest.Length
    requires Underway(e, s, i, q, 3, y, z0, g0, dest[..y]) && Value(e, i) != 253 && Value(e, i) != 255
    requires g == if Value(e, i) == 254 then g0 - 1 else g0
    requires z == z0 * 64 + if Value(e, i) == 254 then 0 else Value(e, i)
    modifies dest
    ensures y' <= dest.Length && Underway(e, s, After(e, i), q + 1, 0, y', 0, g, dest[..y'])
  {
    WordTurn(e, s, i, q, y, z0, g0, dest[..y], g, z);
    y' := PutBytes(dest, y, z, g);
  }

  /** One turn of Decode's loop, for the value `c` found at `i`. */
  method Turn(dest: array<Byte>, c: nat, x: nat, y: nat, z: nat, g: int, ghost e: Item, ghost s: Item, ghost i: nat, ghost q: nat)
      returns (x': nat, y': nat, z': nat, g': int, ghost q': nat)
    requires Fits(e, s, dest.Length) && y <= dest.Length && c == Value(e, i) && c != 255 && (i < |e| || x != 0)
    requires Underway(e, s, i, q, x, y, z, g, dest[..y])
    modifies dest
    ensures y' <= dest.Length && Underway(e, s, After(e, i), q', x', y', z', g', dest[..y'])
    ensures i == |e| ==> x' == 0 || x' == x + 1
  {
    x', y', z', g', q' := x, y, z, g, q;
    if c == 253 {
      SpaceTurn(e, s, i, q, x, y, z, g, dest[..y]);
      return;
    }
    g' := if c == 254 then g - 1 else g;
    z' := z * 64 + if c == 254 then 0 else c;
    if x == 3 {
      y' := PutWord(dest, y, z', g', e, s, i, q, z, g);
      x', z', q' := 0, 0, q + 1;
    } else {
      SymbolTurn(e, s, i, q, x, y, z, g, dest[..y], g', z');
      x' := x + 1;
    }
  }

  /** The loop of Decode: `y` bytes are written, or something foreign is met. */
  method DecodeGroups(src: array<Byte>, dest: array<Byte>, ghost s: Item) returns (ok: bool, y: nat)
    requires src != dest && (Encodes(Stripped(src[..]), s) || ForeignLater(src[..], 0)) && Fits(src[..], s, dest.Length)
    modifies dest
    ensures ok <==> Encodes(Stripped(src[..]), s)
    ensures ok ==> y == |s| && dest[..y] == s
  {
    ghost var e, q := src[..], 0;
    var i: nat, x: nat, z: nat, g := 0, 0, 0, 3;
    y := 0;
    Begins(e, s);
    while i < src.Length || x != 0
      invariant src[..] == e && y <= dest.Length && Underway(e, s, i, q, x, y, z, g, dest[..y])
      decreases src.Length - i, if x == 0 then 0 else 4 - x
    {
      var c := if i < src.Length then Map(src[i]) else 254;
      if c == 255 {
        ForeignIsNoSymbol(e, s, i);
        return false, y;
      }
      x, y, z, g, q := Turn(dest, c, x, y, z, g, e, s, i, q);
      if i < src.Length {
        i := i + 1;
      }
    }
    AllGiven(e, s, q, y, z, g, dest[..y]);
    ok := true;
  }

  /** Decodes a text: the encoding of `s`, padded or not, with any white space in it, or a text
      with something foreign in it. Returns 0, or -5 and the length needed, or -3. White space
      is skipped, but counted by the guess: it is accepted as long as the guess stays right. */
  method Decode(src: array<Byte>, dest: array<Byte>, destLen: nat, ghost s: Item) returns (rc: int, newLen: nat)
    requires destLen <= dest.Length && src != dest && src.Length < DWORD
    requires Encodes(Stripped(src[..]), s) || (ForeignLater(src[..], 0) && 3 * (src.Length / 4) <= dest.Length)
    modifies dest
    ensures destLen < DecodeBound(src[..]) ==> rc == -5 && newLen == DecodeBound(src[..]) && dest[..] == old(dest[..])
    ensures destLen >= DecodeBound(src[..]) ==> rc == 0 || (rc == -3 && newLen == 0)
    ensures destLen >= DecodeBound(src[..]) && Encodes(Stripped(src[..]), s) ==> (rc == 0 <==> DecodeBound(src[..]) == |s|)
    ensures rc == 0 ==> Encodes(Stripped(src[..]), s) && newLen == |s| <= dest.Length && dest[..newLen] == s
    ensures rc == 0 && destLen > |s| ==> dest[newLen] == 0
  {
    if Encodes(Stripped(src[..]), s) { BoundIsEnough(src[..], s); }
    var realLen := DecodeBound(src[..]);
    if destLen < realLen {
      return -5, realLen;
    }
    var ok, y := DecodeGroups(src, dest, s);
    if !ok || y != realLen {
      return -3, 0;
    }
    if destLen > realLen {
      dest[realLen] := 0;
    }
    return 0, realLen;
  }

  lemma {:induction false} Finished(s: Item, n: nat, q: nat)
    requires n == 4 * Groups(|s|) || n == Solid(|s|)
    requires n <= 4 * q && q <= Groups(|s|)
    ensures Min(3 * q, |s|) == |s|
  {
  }

  /** The bytes of one group; `g` says how many. */
  method PutBytes(dest: array<Byte>, y: nat, z: nat, g: int) returns (y': nat)
    requires y + Size(g) <= dest.Length
    modifies dest
    ensures y' == y + Size(g) && dest[..y'] == old(dest[..y]) + BytesIn(z)[..Size(g)]
  {
    y' := y;
    dest[y'] := (z / 65536 % 256) as Byte;
    y' := y' + 1;
    if g > 1 {
      dest[y'] := (z / 256 % 256) as Byte;
      y' := y' + 1;
    }
    if g > 2 {
      dest[y'] := (z % 256) as Byte;
      y' := y' + 1;
    }
  }

  /** Encoding and decoding, with the padding kept or stripped. */
  method RoundTrip(src: array<Byte>, strip: bool) returns (back: array<Byte>)
    requires src.Length <= 0xBFFF_FFFD
    ensures fresh(back) && back[..] == src[..]
  {
    var size := EncodeBound(src.Length);
    EncodeBoundIff(src.Length);
    var text := new Byte[size];
    var rc, len := Encode(src, text, size);
    ghost var s := src[..];
    assert text[..] == text[..len] == Encoded(s);
    if strip {
      var cut := new Byte[Solid(src.Length)](k requires 0 <= k < text.Length reads text => text[k]);
      assert cut[..] == text[..Solid(src.Length)];
      text := cut;
    }
    DecodeBoundIs(text[..], s);
    EncodingIsBare(text[..], s);
    back := new Byte[DecodeBound(text[..])];
    rc, len := Decode(text, back, back.Length, s);
  }
}
