/** The WebSocket frame header of RFC 6455 section 5.2 as MakeWSPacket writes it, on a
    little-endian machine, and the masking of section 5.3. */
module WebSocket {
  import opened Bytes
  import opened Bits

  const MAX_WS_HEADER_LEN := 14
  const MIN_WS_HEADER_LEN := 2
  const TWO_32 := 0x1_0000_0000
  const TWO_64 := 0x1_0000_0000_0000_0000

  datatype Option<T> = None | Some(value: T)

  // ---------------------------------------------------------------- byte order

  /** The lowest `n` bytes, lowest first, and highest first. */
  function LE(x: nat, n: nat): (b: Item)
    ensures |b| == n
  {
    if n == 0 then [] else [(x % 256) as Byte] + LE(x / 256, n - 1)
  }

  function BE(x: nat, n: nat): (b: Item)
    ensures |b| == n
  {
    if n == 0 then [] else BE(x / 256, n - 1) + [(x % 256) as Byte]
  }

  function FromBE(b: Item): nat {
    if b == [] then 0 else FromBE(b[..|b| - 1]) * 256 + b[|b| - 1] as nat
  }

  function Power(n: nat): (p: nat)
    ensures p > 0
  {
    if n == 0 then 1 else 256 * Power(n - 1)
  }

  lemma {:induction false} FromBEBack(x: nat, n: nat)
    requires x < Power(n)
    ensures FromBE(BE(x, n)) == x
    decreases n
  {
    if n > 0 {
      FromBEBack(x / 256, n - 1);
      assert BE(x, n)[..n - 1] == BE(x / 256, n - 1);
    }
  }

  /** htonl, htons, HToN64 */
  function Swap16(x: nat): nat { x % 256 * 256 + x / 256 % 256 }

  function Swap32(x: nat): (y: nat)
    ensures y < TWO_32
  {
    x % 256 * 0x100_0000 + x / 256 % 256 * 0x1_0000 + x / 65536 % 256 * 256 + x / 0x100_0000 % 256
  }

  function HToN64(v: nat): nat { Or(Swap32(v % TWO_32) * TWO_32, Swap32(v / TWO_32 % TWO_32)) }

  lemma Div256(hi: nat, lo: nat)
    requires lo < 256
    ensures (hi * 256 + lo) % 256 == lo && (hi * 256 + lo) / 256 == hi
  {
  }

  lemma Word4(a: nat, b: nat, c: nat, d: nat)
    requires a < 256 && b < 256 && c < 256 && d < 256
    ensures LE(a * 0x100_0000 + b * 0x1_0000 + c * 256 + d, 4) == [d as Byte, c as Byte, b as Byte, a as Byte]
  {
    var x := a * 0x100_0000 + b * 0x1_0000 + c * 256 + d;
    var y := a * 0x1_0000 + b * 256 + c;
    Div256(y, d);
    Div256(a * 256 + b, c);
    Div256(a, b);
    Div256(0, a);
    assert LE(a, 1) == [a as Byte] + LE(0, 0);
    assert LE(a * 256 + b, 2) == [b as Byte] + LE(a, 1);
    assert LE(y, 3) == [c as Byte] + LE(a * 256 + b, 2);
    assert LE(x, 4) == [d as Byte] + LE(y, 3);
  }

  lemma BE4(x: nat)
    ensures BE(x, 4) == [(x / 0x100_0000 % 256) as Byte, (x / 65536 % 256) as Byte, (x / 256 % 256) as Byte, (x % 256) as Byte]
  {
    assert x / 256 / 256 == x / 65536 && x / 65536 / 256 == x / 0x100_0000;
    assert BE(x / 0x100_0000, 1) == BE(x / 0x100_0000 / 256, 0) + [(x / 0x100_0000 % 256) as Byte];
    assert BE(x / 65536, 2) == BE(x / 0x100_0000, 1) + [(x / 65536 % 256) as Byte];
    assert BE(x / 256, 3) == BE(x / 65536, 2) + [(x / 256 % 256) as Byte];
    assert BE(x, 4) == BE(x / 256, 3) + [(x % 256) as Byte];
  }

  lemma Swap32Reverses(x: nat)
    ensures LE(Swap32(x), 4) == BE(x, 4)
  {
    Word4(x % 256, x / 256 % 256, x / 65536 % 256, x / 0x100_0000 % 256);
    BE4(x);
  }

  lemma {:induction false} LESplit(hi: nat, lo: nat, n: nat, m: nat, p: nat)
    requires lo < p == Power(n)
    ensures LE(hi * p + lo, n + m) == LE(lo, n) + LE(hi, m)
    decreases n
  {
    if n == 0 {
      assert LE(lo, 0) + LE(hi, m) == LE(hi, m);
    } else {
      var q := Power(n - 1);
      assert hi * p == 256 * (hi * q);
      DivPlus(hi * q, lo);
      LESplit(hi, lo / 256, n - 1, m, q);
      assert n + m - 1 == n - 1 + m;
      assert [(lo % 256) as Byte] + (LE(lo / 256, n - 1) + LE(hi, m)) == LE(lo, n) + LE(hi, m);
    }
  }

  lemma DivPlus(k: nat, lo: nat)
    ensures (256 * k + lo) % 256 == lo % 256 && (256 * k + lo) / 256 == k + lo / 256
  {
  }

  lemma {:induction false} BESplit(hi: nat, lo: nat, n: nat, m: nat, p: nat)
    requires lo < p == Power(n)
    ensures BE(hi * p + lo, m + n) == BE(hi, m) + BE(lo, n)
    decreases n
  {
    if n == 0 {
      assert BE(hi, m) + BE(lo, 0) == BE(hi, m);
    } else {
      var q := Power(n - 1);
      var x := hi * p + lo;
      assert hi * p == 256 * (hi * q);
      DivPlus(hi * q, lo);
      BESplit(hi, lo / 256, n - 1, m, q);
      assert m + n - 1 == m + (n - 1);
      assert BE(x, m + n) == BE(x / 256, m + n - 1) + [(x % 256) as Byte];
    }
  }

  lemma Power4()
    ensures Power(4) == TWO_32 && Power(2) == 65536 && Power(8) == TWO_64 && Pow2(32) == TWO_32
  {
    assert Power(3) == 0x100_0000 && Power(5) == 256 * Power(4) && Power(6) == 256 * Power(5) && Power(7) == 256 * Power(6);
    assert Pow2(4) == 16 && Pow2(8) == 256 && Pow2(12) == 4096 && Pow2(16) == 65536;
    assert Pow2(20) == 1048576 && Pow2(24) == 0x100_0000 && Pow2(28) == 0x1000_0000;
  }

  lemma LE8(hi: nat, lo: nat)
    requires lo < TWO_32
    ensures LE(hi * TWO_32 + lo, 8) == LE(lo, 4) + LE(hi, 4)
  {
    Power4();
    LESplit(hi, lo, 4, 4, TWO_32);
  }

  lemma BE8(hi: nat, lo: nat)
    requires lo < TWO_32
    ensures BE(hi * TWO_32 + lo, 8) == BE(hi, 4) + BE(lo, 4)
  {
    Power4();
    BESplit(hi, lo, 4, 4, TWO_32);
  }

  lemma Joined(a: nat, b: nat)
    requires b < TWO_32
    ensures Or(a * TWO_32, b) == a * TWO_32 + b
  {
    Power4();
    OrDisjoint(a, b, 32);
  }

  lemma Halves(v: nat)
    requires v < TWO_64
    ensures v / TWO_32 < TWO_32 && v / TWO_32 * TWO_32 + v % TWO_32 == v
    ensures HToN64(v) == Swap32(v % TWO_32) * TWO_32 + Swap32(v / TWO_32)
  {
    ModOfSmall(v / TWO_32, TWO_32);
    Joined(Swap32(v % TWO_32), Swap32(v / TWO_32));
  }

  lemma Crossed(v: nat, hi: nat, lo: nat, a: nat, b: nat)
    requires v == hi * TWO_32 + lo && lo < TWO_32 && a < TWO_32
    requires LE(a, 4) == BE(hi, 4) && LE(b, 4) == BE(lo, 4)
    ensures LE(b * TWO_32 + a, 8) == BE(v, 8)
  {
    LE8(b, a);
    BE8(hi, lo);
  }

  /** HToN64 lays a number out in memory with its highest byte first. */
  lemma HToN64Reverses(v: nat)
    requires v < TWO_64
    ensures LE(HToN64(v), 8) == BE(v, 8)
  {
    var hi, lo := v / TWO_32, v % TWO_32;
    Halves(v);
    Swap32Reverses(hi);
    Swap32Reverses(lo);
    Crossed(v, hi, lo, Swap32(hi), Swap32(lo));
  }

  // ---------------------------------------------------------------- the first word

  /** The setters of TBaseWSHeader; the word starts as 0. */
  function SetFin(d: nat, v: bool): nat { Or(d, (if v then 1 else 0) * 128) }
  function SetRsv(d: nat, v: Byte): nat { Or(d, v as nat % 8 * 16) }
  function SetCode(d: nat, v: Byte): nat { Or(d, v as nat % 16) }
  function SetMask(d: nat, v: bool): nat { Or(d, (if v then 1 else 0) * 0x8000) }
  function SetLen(d: nat, v: nat): nat { Or(d, v % 128 * 256) }
  function SetExtLen(d: nat, v: nat): nat { Or(d, Swap16(v) * 65536) }

  function Bit(v: bool): nat { if v then 1 else 0 }

  function FirstWord(fin: bool, rsv: Byte, code: Byte, mask: bool, len: nat): nat {
    SetLen(SetMask(SetCode(SetRsv(SetFin(0, fin), rsv), code), mask), len)
  }

  lemma MorePowers()
    ensures Pow2(4) == 16 && Pow2(7) == 128 && Pow2(8) == 256 && Pow2(15) == 0x8000 && Pow2(16) == 65536
  {
    assert Pow2(3) == 8;
    assert Pow2(6) == 64;
    assert Pow2(10) == 1024 && Pow2(12) == 4096 && Pow2(14) == 16384;
  }

  lemma Or4(a: nat, b: nat)
    requires b < 16
    ensures Or(a * 16, b) == a * 16 + b
  {
    MorePowers();
    OrDisjoint(a, b, 4);
  }

  lemma Or7(a: nat, b: nat)
    requires b < 128
    ensures Or(a * 128, b) == a * 128 + b
  {
    MorePowers();
    OrDisjoint(a, b, 7);
  }

  lemma LowByte(f: nat, r: nat, c: nat)
    requires f <= 1 && r < 8 && c < 16
    ensures Or(Or(f * 128, r * 16), c) == f * 128 + r * 16 + c
  {
    Or7(f, r * 16);
    var high := f * 8 + r;
    assert high * 16 == f * 128 + r * 16;
    Or4(high, c);
  }

  lemma HighByte(b: nat, m: nat, l: nat)
    requires b < 256 && m <= 1 && l < 128
    ensures Or(Or(b, m * 0x8000), l * 256) == m * 0x8000 + l * 256 + b
  {
    MorePowers();
    var mm, ll := m * 0x8000, l * 256;
    OrCommutes(b, mm);
    OrAssociates(mm, b, ll);
    OrCommutes(b, ll);
    OrDisjoint(l, b, 8);
    OrDisjoint(m, ll + b, 15);
  }

  /** The fields do not overlap. */
  lemma WordIs(fin: bool, rsv: Byte, code: Byte, mask: bool, len: nat)
    requires len < 128
    ensures FirstWord(fin, rsv, code, mask, len)
         == Bit(mask) * 0x8000 + len * 256 + Bit(fin) * 128 + rsv as nat % 8 * 16 + code as nat % 16
  {
    var f, r, c := Bit(fin), rsv as nat % 8, code as nat % 16;
    LowByte(f, r, c);
    var b := f * 128 + r * 16 + c;
    HighByte(b, Bit(mask), len);
    assert SetCode(SetRsv(SetFin(0, fin), rsv), code) == b by { assert SetFin(0, fin) == f * 128; }
    ModOfSmall(len, 128);
  }

  lemma ExtWordIs(w: nat, ext: nat)
    requires w < 65536 && ext < 65536
    ensures SetExtLen(w, ext) == Swap16(ext) * 65536 + w
  {
    MorePowers();
    OrCommutes(w, Swap16(ext) * 65536);
    OrDisjoint(Swap16(ext), w, 16);
  }

  lemma BE2(x: nat)
    ensures BE(x, 2) == [(x / 256 % 256) as Byte, (x % 256) as Byte]
  {
    assert BE(x / 256, 1) == BE(x / 256 / 256, 0) + [(x / 256 % 256) as Byte];
    assert BE(x, 2) == BE(x / 256, 1) + [(x % 256) as Byte];
  }

  lemma WordBytes(b0: nat, b1: nat, ext: nat)
    requires b0 < 256 && b1 < 256 && ext < 65536
    ensures LE(Swap16(ext) * 65536 + b1 * 256 + b0, 4) == [b0 as Byte, b1 as Byte] + BE(ext, 2)
  {
    BE2(ext);
    Word4(ext % 256, ext / 256 % 256, b1, b0);
    Swap16Is(ext);
  }

  lemma Swap16Is(x: nat)
    ensures Swap16(x) * 65536 == x % 256 * 0x100_0000 + x / 256 % 256 * 0x1_0000
  {
  }

  // ---------------------------------------------------------------- the header

  /** What a header says: section 5.2 of RFC 6455. */
  datatype Head = Head(fin: bool, rsv: nat, code: nat, mask: Option<Item>, len: nat)

  predicate ValidHead(h: Head) {
    h.rsv < 8 && h.code < 16 && h.len < TWO_64 / 2 && (h.mask.Some? ==> |h.mask.value| == 4)
  }

  function ShortLen(len: nat): nat { if len < 126 then len else if len <= 0xFFFF then 126 else 127 }

  function ExtBytes(len: nat): Item { if len < 126 then [] else if len <= 0xFFFF then BE(len, 2) else BE(len, 8) }

  function KeyBytes(mask: Option<Item>): Item { if mask.Some? then mask.value else [] }

  function Written(h: Head): Item
    requires ValidHead(h)
  {
    [(Bit(h.fin) * 128 + h.rsv * 16 + h.code) as Byte, (Bit(h.mask.Some?) * 128 + ShortLen(h.len)) as Byte]
    + ExtBytes(h.len) + KeyBytes(h.mask)
  }

  /** Reading a header from the front of received bytes: the fields and the header's size,
      or nothing while it is not complete or if the 64-bit length has its first bit set. */
  function Read(b: Item): Option<(Head, nat)> {
    if |b| < 2 then None
    else
      var b0, b1 := b[0] as nat, b[1] as nat;
      var ext := if b1 % 128 < 126 then 0 else if b1 % 128 == 126 then 2 else 8;
      var size := 2 + ext + (if b1 >= 128 then 4 else 0);
      if |b| < size then None
      else
        var len := if ext == 0 then b1 % 128 else FromBE(b[2..2 + ext]);
        if len >= TWO_64 / 2 then None
        else Some((Head(b0 >= 128, b0 / 16 % 8, b0 % 16, if b1 >= 128 then Some(b[2 + ext..size]) else None, len), size))
  }

  lemma FirstByte(fin: bool, rsv: nat, code: nat)
    requires rsv < 8 && code < 16
    ensures var b := Bit(fin) * 128 + rsv * 16 + code;
      b < 256 && (b >= 128 <==> fin) && b / 16 % 8 == rsv && b % 16 == code
  {
    var b := Bit(fin) * 128 + rsv * 16 + code;
    assert b == (Bit(fin) * 8 + rsv) * 16 + code;
  }

  lemma LengthBack(len: nat)
    requires len < TWO_64 / 2
    ensures len >= 126 ==> FromBE(ExtBytes(len)) == len
  {
    Power4();
    if 126 <= len <= 0xFFFF { FromBEBack(len, 2); }
    if len > 0xFFFF { FromBEBack(len, 8); }
  }

  /** A written header is read back, whatever follows it. */
  lemma ReadBack(h: Head, rest: Item)
    requires ValidHead(h)
    ensures Read(Written(h) + rest) == Some((h, |Written(h)|))
  {
    FirstByte(h.fin, h.rsv, h.code);
    LengthBack(h.len);
    var b, ext, key := Written(h) + rest, ExtBytes(h.len), KeyBytes(h.mask);
    Parts(Written(h)[..2], ext, key, rest);
    assert Written(h) == Written(h)[..2] + ext + key;
  }

  lemma Parts(two: Item, ext: Item, key: Item, rest: Item)
    requires |two| == 2
    ensures var b := two + ext + key + rest;
      b[2..2 + |ext|] == ext && b[2 + |ext|..2 + |ext| + |key|] == key && b[0] == two[0] && b[1] == two[1]
  {
  }

  /** No header is the beginning of another, so the payload starts where the reader thinks. */
  lemma PrefixFree(h: Head, h': Head, rest: Item)
    requires ValidHead(h) && ValidHead(h') && Written(h) <= Written(h') + rest
    ensures h == h'
  {
    var b := Written(h') + rest;
    ReadBack(h', rest);
    ReadBack(h, b[|Written(h)|..]);
    assert Written(h) + b[|Written(h)|..] == b;
  }

  lemma {:induction false} FromBEBound(b: Item)
    ensures FromBE(b) < Power(|b|)
    decreases |b|
  {
    if b != [] { FromBEBound(b[..|b| - 1]); }
  }

  /** Any header that says the same is at least as long: the shortest form of the length
      is the one written. */
  lemma ShortestForm(b: Item, h: Head)
    requires ValidHead(h) && Read(b).Some? && Read(b).value.0 == h
    ensures |Written(h)| <= Read(b).value.1
  {
    Power4();
    var b1 := b[1] as nat;
    if b1 % 128 == 126 { FromBEBound(b[2..4]); }
  }

  // ---------------------------------------------------------------- masking

  /** Section 5.3: byte i is combined with byte i mod 4 of the key. */
  function Masked(data: Item, key: Item): (r: Item)
    requires |key| == 4
    ensures |r| == |data|
    ensures forall i | 0 <= i < |data| :: r[i] == XorByte(data[i], key[i % 4])
  {
    if data == [] then []
    else
      var n := |data| - 1;
      Masked(data[..n], key) + [XorByte(data[n], key[n % 4])]
  }

  lemma XorFits(a: nat, b: nat)
    requires a < 256 && b < 256
    ensures Xor(a, b) < 256
  {
    MorePowers();
    XorBound(a, b, 8);
  }

  function XorByte(a: Byte, b: Byte): Byte {
    XorFits(a as nat, b as nat);
    Xor(a as nat, b as nat) as Byte
  }

  /** Bit by bit, the masked byte differs from the plain one exactly where the key's byte has
      a bit. */
  ghost predicate Combines(masked: nat, plain: nat, key: nat) {
    forall k :: HasBit(masked, k) <==> HasBit(plain, k) != HasBit(key, k)
  }

  lemma XorCombines(a: nat, b: nat)
    ensures Combines(Xor(a, b), a, b)
  {
    forall k ensures HasBit(Xor(a, b), k) <==> HasBit(a, k) != HasBit(b, k) { XorBits(a, b, k); }
  }

  lemma MaskBits(data: Item, key: Item)
    requires |key| == 4
    ensures forall i | 0 <= i < |data| :: Combines(Masked(data, key)[i] as nat, data[i] as nat, key[i % 4] as nat)
  {
    forall i | 0 <= i < |data| ensures Combines(Masked(data, key)[i] as nat, data[i] as nat, key[i % 4] as nat) {
      XorCombines(data[i] as nat, key[i % 4] as nat);
    }
  }

  /** Masking again with the same key restores the payload. */
  lemma MaskTwice(data: Item, key: Item)
    requires |key| == 4
    ensures Masked(Masked(data, key), key) == data
  {
    forall i | 0 <= i < |data| ensures Masked(Masked(data, key), key)[i] == data[i] {
      XorTwice(data[i] as nat, key[i % 4] as nat);
    }
  }

  // ---------------------------------------------------------------- MakeWSPacket

  /** A store or memcpy of `b` at `at`. */
  method Put(a: array<Byte>, at: nat, b: Item)
    requires at + |b| <= a.Length
    modifies a
    ensures a[..at + |b|] == old(a[..at]) + b
  {
    forall i | 0 <= i < |b| { a[at + i] := b[i]; }
  }

  /** The length announced: that of the data, unless the data is part of a longer body. */
  function Announced(length: nat, bodyLen: nat): nat { if bodyLen == 0 then length else bodyLen }

  function HeadOf(fin: bool, rsv: Byte, code: Byte, mask: Option<Item>, len: nat): Head {
    Head(fin, rsv as nat % 8, code as nat % 16, mask, len)
  }

  /** The bytes of the first word, without and with the extended length. */
  lemma WordStored(fin: bool, rsv: Byte, code: Byte, masked: bool, len: nat, ext: nat)
    requires len < 128 && ext < 65536
    ensures var w := FirstWord(fin, rsv, code, masked, len);
      var two := [(Bit(fin) * 128 + rsv as nat % 8 * 16 + code as nat % 16) as Byte, (Bit(masked) * 128 + len) as Byte];
      LE(w, 4) == two + BE(0, 2) && LE(SetExtLen(w, ext), 4) == two + BE(ext, 2)
  {
    var w := FirstWord(fin, rsv, code, masked, len);
    var b0, b1 := Bit(fin) * 128 + rsv as nat % 8 * 16 + code as nat % 16, Bit(masked) * 128 + len;
    WordIs(fin, rsv, code, masked, len);
    assert w == b1 * 256 + b0;
    ExtWordIs(w, ext);
    WordBytes(b0, b1, 0);
    WordBytes(b0, b1, ext);
  }

  /** The first word and the extended length; the mask's bytes follow later. */
  method PutHead(fin: bool, rsv: Byte, code: Byte, masked: bool, total: nat, header: array<Byte>) returns (headerLen: nat)
    requires header.Length == MAX_WS_HEADER_LEN && total < TWO_64 / 2
    modifies header
    ensures headerLen <= 10
    ensures header[..headerLen] ==
      [(Bit(fin) * 128 + rsv as nat % 8 * 16 + code as nat % 16) as Byte, (Bit(masked) * 128 + ShortLen(total)) as Byte]
      + ExtBytes(total)
  {
    headerLen := MIN_WS_HEADER_LEN;
    var word := FirstWord(fin, rsv, code, masked, ShortLen(total));
    WordStored(fin, rsv, code, masked, ShortLen(total), if 126 <= total <= 0xFFFF then total else 0);
    if 126 <= total <= 0xFFFF {
      word := SetExtLen(word, total);
      headerLen := headerLen + 2;
    }
    Put(header, 0, LE(word, 4));
    assert header[..4][..2] == header[..2];
    if total > 0xFFFF {
      HToN64Reverses(total);
      Put(header, MIN_WS_HEADER_LEN, LE(HToN64(total), 8));
      headerLen := headerLen + 8;
    }
  }

  method MakeWSPacket(fin: bool, rsv: Byte, code: Byte, mask: Option<Item>, data: array<Byte>, bodyLen: nat,
      header: array<Byte>) returns (ok: bool, headerLen: nat)
    requires header.Length == MAX_WS_HEADER_LEN && header != data && data.Length < TWO_32 / 2
    requires bodyLen < TWO_64 / 2 && (mask.Some? ==> |mask.value| == 4)
    modifies data, header
    ensures ok <==> bodyLen == 0 || bodyLen >= data.Length
    ensures !ok ==> data[..] == old(data[..]) && header[..] == old(header[..])
    ensures headerLen <= header.Length
    ensures ok ==> header[..headerLen] == Written(HeadOf(fin, rsv, code, mask, Announced(data.Length, bodyLen)))
    ensures ok ==> data[..] == if mask.Some? then Masked(old(data[..]), mask.value) else old(data[..])
    ensures ok && mask.Some? ==> forall i | 0 <= i < data.Length ::
      Combines(data[i] as nat, old(data[i]) as nat, mask.value[i % 4] as nat)
  {
    var total := bodyLen;
    if bodyLen == 0 {
      total := data.Length;
    } else if bodyLen < data.Length {
      return false, 0;
    }
    headerLen := PutHead(fin, rsv, code, mask.Some?, total, header);
    if mask.Some? {
      Put(header, headerLen, mask.value);
      ghost var before, written := data[..], header[..headerLen + 4];
      for i := 0 to data.Length
        invariant forall j | 0 <= j < i :: data[j] == XorByte(before[j], mask.value[j % 4])
        invariant forall j | i <= j < data.Length :: data[j] == before[j]
        invariant header[..headerLen + 4] == written
      {
        data[i] := XorByte(data[i], mask.value[i % 4]);
      }
      headerLen := headerLen + 4;
      MaskBits(before, mask.value);
      assert data[..] == Masked(before, mask.value);
    }
    return true, headerLen;
  }
}
