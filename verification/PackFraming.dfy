/** The PACK model's framing: a 4-byte header with a 10-bit flag and a 22-bit length, then
    the payload; printed by AddPackHeader and read back by an incremental parser. */
module PackFraming {
  import opened Bytes
  import opened Bits

  const LENGTH_BITS := 22
  const LENGTH_MASK := 0x3FFFFF
  const MAX_SIZE_LIMIT := 0x3FFFFF
  const HEADER_FLAG_LIMIT := 0x3FF
  const HEADER_SIZE := 4
  const DWORD := 0x1_0000_0000

  datatype Limits = Limits(maxSize: nat, flag: nat) {
    /** CheckParams */
    predicate Valid() { 0 < maxSize <= MAX_SIZE_LIMIT && flag <= HEADER_FLAG_LIMIT }
  }

  // ---------------------------------------------------------------- the header word

  function Header(flag: nat, length: nat): nat { Or(flag * Pow2(LENGTH_BITS) % DWORD, length) }

  function FlagOf(header: nat): nat { (header / Pow2(LENGTH_BITS)) % 0x1_0000 }

  function LengthOf(header: nat): nat { And(header, LENGTH_MASK) }

  lemma Powers()
    ensures Pow2(22) == 0x40_0000
  {
    assert Pow2(2) == 4;
    assert Pow2(4) == 16 && Pow2(6) == 64 && Pow2(8) == 256 && Pow2(10) == 1024 && Pow2(12) == 4096;
    assert Pow2(14) == 16384 && Pow2(16) == 65536 && Pow2(18) == 262144 && Pow2(20) == 1048576;
  }

  lemma LengthIsRemainder(header: nat)
    ensures LengthOf(header) == header % 0x40_0000
  {
    Powers();
    AndMask(header, 22);
  }

  /** Packing and unpacking are inverse over all flags of 10 and lengths of 22 bits... */
  lemma HeaderRoundTrip(flag: nat, length: nat)
    requires flag <= HEADER_FLAG_LIMIT && length <= LENGTH_MASK
    ensures Header(flag, length) < DWORD
    ensures FlagOf(Header(flag, length)) == flag && LengthOf(Header(flag, length)) == length
  {
    HeaderIs(flag, length);
    LengthIsRemainder(Header(flag, length));
    Powers();
  }

  lemma HeaderIs(flag: nat, length: nat)
    requires flag <= HEADER_FLAG_LIMIT && length <= LENGTH_MASK
    ensures Header(flag, length) == flag * 0x40_0000 + length
  {
    Powers();
    OrDisjoint(flag, length, 22);
  }

  /** ...and over all words. */
  lemma HeaderOnto(header: nat)
    requires header < DWORD
    ensures FlagOf(header) <= HEADER_FLAG_LIMIT && LengthOf(header) <= LENGTH_MASK
    ensures Header(FlagOf(header), LengthOf(header)) == header
  {
    Powers();
    LengthIsRemainder(header);
    OrDisjoint(header / 0x40_0000, header % 0x40_0000, 22);
  }

  // ---------------------------------------------------------------- its bytes

  /** A DWORD in memory, least significant byte first. */
  function Put(x: nat): (r: Item)
    requires x < DWORD
    ensures |r| == HEADER_SIZE
  {
    [(x % 0x100) as Byte, (x / 0x100 % 0x100) as Byte, (x / 0x1_0000 % 0x100) as Byte, (x / 0x100_0000) as Byte]
  }

  function Get(b: Item): (x: nat)
    requires |b| == HEADER_SIZE
    ensures x < DWORD
  {
    b[0] as nat + b[1] as nat * 0x100 + b[2] as nat * 0x1_0000 + b[3] as nat * 0x100_0000
  }

  lemma GetPut(x: nat)
    requires x < DWORD
    ensures Get(Put(x)) == x
  {
    var h := x / 0x100;
    assert x == h * 0x100 + x % 0x100;
    assert x / 0x1_0000 == h / 0x100 && x / 0x100_0000 == h / 0x1_0000;
  }

  // ---------------------------------------------------------------- the parser

  /** TPackInfo: what is awaited and how many bytes of it. */
  datatype Info = Info(header: bool, length: nat) {
    predicate Valid() { if header then length == HEADER_SIZE else 0 < length <= LENGTH_MASK }
  }

  const FRESH := Info(true, HEADER_SIZE)

  predicate Rejected(lim: Limits, header: nat) {
    || (lim.flag != 0 && FlagOf(header) != lim.flag)
    || LengthOf(header) == 0
    || LengthOf(header) > lim.maxSize
  }

  /** The parser accepts exactly the headers with the right flag, if one is configured, and a
      length within its limit. */
  lemma AcceptedIff(lim: Limits, flag: nat, length: nat)
    requires flag <= HEADER_FLAG_LIMIT && length <= LENGTH_MASK
    ensures !Rejected(lim, Header(flag, length)) <==> (lim.flag == 0 || flag == lim.flag) && 0 < length <= lim.maxSize
  {
    HeaderRoundTrip(flag, length);
  }

  /** Packets, what is awaited after them, the bytes not yet consumed, and whether a header
      was rejected. */
  datatype Parse = Parse(packs: seq<Item>, info: Info, rest: Item, bad: bool) {
    function Before(more: seq<Item>): Parse { Parse(more + packs, info, rest, bad) }
  }

  lemma BeforeTwice(r: Parse, more: seq<Item>, packs: seq<Item>)
    ensures r.Before(more).Before(packs) == r.Before(packs + more)
  {
    assert packs + (more + r.packs) == (packs + more) + r.packs;
  }

  /** All there is to deliver from `data`, without pauses. A rejected header is consumed
      and nothing after it is looked at. */
  function Parsed(lim: Limits, info: Info, data: Item): (r: Parse)
    requires info.Valid()
    ensures r.info.Valid() && |r.rest| <= |data|
    ensures !r.bad ==> |r.rest| < r.info.length
    decreases |data|
  {
    if |data| < info.length then Parse([], info, data, false)
    else
      var chunk, rest := data[..info.length], data[info.length..];
      if !info.header then Parsed(lim, FRESH, rest).Before([chunk])
      else if Rejected(lim, Get(chunk)) then Parse([], info, rest, true)
      else
        LengthIsRemainder(Get(chunk));
        Parsed(lim, Info(false, LengthOf(Get(chunk))), rest)
  }

  /** A parse, and what the bytes after it add. */
  function Joined(r: Parse, q: Parse, later: Item): Parse {
    if r.bad then Parse(r.packs, r.info, r.rest + later, true) else q.Before(r.packs)
  }

  /** The unread rest and the next bytes parse as if all had come at once. */
  lemma {:induction false} ParsedAppend(lim: Limits, info: Info, a: Item, b: Item)
    requires info.Valid()
    ensures var r := Parsed(lim, info, a);
      Parsed(lim, info, a + b) == Joined(r, Parsed(lim, r.info, r.rest + b), b)
    decreases |a|
  {
    if |a| < info.length {
    } else {
      assert (a + b)[..info.length] == a[..info.length];
      assert (a + b)[info.length..] == a[info.length..] + b;
      var chunk, rest := a[..info.length], a[info.length..];
      if !info.header {
        ParsedAppend(lim, FRESH, rest, b);
        var r := Parsed(lim, FRESH, rest);
        if !r.bad {
          var q := Parsed(lim, r.info, r.rest + b);
          assert [chunk] + (r.packs + q.packs) == ([chunk] + r.packs) + q.packs;
        }
      } else if !Rejected(lim, Get(chunk)) {
        LengthIsRemainder(Get(chunk));
        ParsedAppend(lim, Info(false, LengthOf(Get(chunk))), rest, b);
      }
    }
  }

  // ---------------------------------------------------------------- past a bad header

  /** What there is to deliver if parsing goes on after a rejected header. */
  function Skimmed(lim: Limits, info: Info, data: Item): (r: Parse)
    requires info.Valid()
    ensures r.info.Valid() && |r.rest| < r.info.length && !r.bad
    decreases |data|
  {
    if |data| < info.length then Parse([], info, data, false)
    else
      var chunk, rest := data[..info.length], data[info.length..];
      if !info.header then Skimmed(lim, FRESH, rest).Before([chunk])
      else if Rejected(lim, Get(chunk)) then Skimmed(lim, FRESH, rest)
      else
        LengthIsRemainder(Get(chunk));
        Skimmed(lim, Info(false, LengthOf(Get(chunk))), rest)
  }

  lemma {:induction false} SkimmedAppend(lim: Limits, info: Info, a: Item, b: Item)
    requires info.Valid()
    ensures var r := Skimmed(lim, info, a); Skimmed(lim, info, a + b) == Skimmed(lim, r.info, r.rest + b).Before(r.packs)
    decreases |a|
  {
    if |a| >= info.length {
      assert (a + b)[..info.length] == a[..info.length];
      assert (a + b)[info.length..] == a[info.length..] + b;
      var chunk, rest := a[..info.length], a[info.length..];
      if !info.header {
        SkimmedAppend(lim, FRESH, rest, b);
        var r := Skimmed(lim, FRESH, rest);
        BeforeTwice(Skimmed(lim, r.info, r.rest + b), r.packs, [chunk]);
      } else if Rejected(lim, Get(chunk)) {
        SkimmedAppend(lim, FRESH, rest, b);
      } else {
        LengthIsRemainder(Get(chunk));
        SkimmedAppend(lim, Info(false, LengthOf(Get(chunk))), rest, b);
      }
    }
  }

  /** How many rejected headers are skipped. */
  function Skips(lim: Limits, info: Info, data: Item): nat
    requires info.Valid()
    decreases |data|
  {
    if |data| < info.length then 0
    else
      var chunk, rest := data[..info.length], data[info.length..];
      if !info.header then Skips(lim, FRESH, rest)
      else if Rejected(lim, Get(chunk)) then 1 + Skips(lim, FRESH, rest)
      else
        LengthIsRemainder(Get(chunk));
        Skips(lim, Info(false, LengthOf(Get(chunk))), rest)
  }

  lemma {:induction false} SkipsAppend(lim: Limits, info: Info, a: Item, b: Item)
    requires info.Valid()
    ensures var r := Skimmed(lim, info, a); Skips(lim, info, a + b) == Skips(lim, info, a) + Skips(lim, r.info, r.rest + b)
    decreases |a|
  {
    if |a| >= info.length {
      assert (a + b)[..info.length] == a[..info.length];
      assert (a + b)[info.length..] == a[info.length..] + b;
      var chunk, rest := a[..info.length], a[info.length..];
      if !info.header || Rejected(lim, Get(chunk)) {
        SkipsAppend(lim, FRESH, rest, b);
      } else {
        LengthIsRemainder(Get(chunk));
        SkipsAppend(lim, Info(false, LengthOf(Get(chunk))), rest, b);
      }
    }
  }

  /** Both parses agree up to the first rejected header. */
  lemma {:induction false} SkimmedIs(lim: Limits, info: Info, data: Item)
    requires info.Valid()
    ensures var r := Parsed(lim, info, data);
      Skimmed(lim, info, data) == if r.bad then Skimmed(lim, FRESH, r.rest).Before(r.packs) else r
    decreases |data|
  {
    if |data| >= info.length {
      var chunk, rest := data[..info.length], data[info.length..];
      if !info.header {
        SkimmedIs(lim, FRESH, rest);
        var r := Parsed(lim, FRESH, rest);
        BeforeTwice(Skimmed(lim, FRESH, r.rest), r.packs, [chunk]);
      } else if !Rejected(lim, Get(chunk)) {
        LengthIsRemainder(Get(chunk));
        SkimmedIs(lim, Info(false, LengthOf(Get(chunk))), rest);
      }
    }
  }

  /** They deliver the same exactly if no header is rejected or none is followed by a packet. */
  lemma SkimsMoreIff(lim: Limits, data: Item)
    ensures var r, all := Parsed(lim, FRESH, data), Skimmed(lim, FRESH, data);
      r.packs <= all.packs && (all.packs != r.packs <==> r.bad && Skimmed(lim, FRESH, r.rest).packs != [])
  {
    SkimmedIs(lim, FRESH, data);
  }

  /** A piece of just the awaited length leaves nothing over. */
  lemma OnePiece(lim: Limits, info: Info, piece: Item)
    requires info.Valid() && |piece| == info.length
    ensures Skimmed(lim, info, piece).rest == [] && Skips(lim, info, piece) <= 1
    ensures !info.header ==> Skimmed(lim, info, piece).packs != [] && Skips(lim, info, piece) == 0
  {
    assert piece[info.length..] == [];
  }

  lemma OneFrame(lim: Limits)
    requires lim.Valid()
    ensures Skimmed(lim, FRESH, Frame(lim, [0])).packs != [] && Skips(lim, FRESH, Frame(lim, [0])) == 0
  {
    var f, h := Frame(lim, [0]), Header(lim.flag, 1);
    HeaderRoundTrip(lim.flag, 1);
    GetPut(h);
    assert f[..HEADER_SIZE] == Put(h) && f[HEADER_SIZE..] == [0];
    assert !Rejected(lim, h);
    OnePiece(lim, Info(false, 1), [0]);
  }

  /** Some bytes make up a packet, whatever is awaited. */
  lemma PacketAfter(lim: Limits, info: Info) returns (more: Item)
    requires lim.Valid() && info.Valid()
    ensures Skimmed(lim, info, more).packs != [] && Skips(lim, info, more) == 0
  {
    if info.header {
      more := Frame(lim, [0]);
      OneFrame(lim);
    } else {
      more := Zeroes(info.length);
      OnePiece(lim, info, more);
    }
  }

  /** The piece awaited after `data`, filled up. */
  lemma Filled(lim: Limits, info: Info, data: Item) returns (fill: Item)
    requires info.Valid()
    ensures Skimmed(lim, info, data + fill).rest == [] && Skips(lim, info, data + fill) <= Skips(lim, info, data) + 1
  {
    var r := Skimmed(lim, info, data);
    fill := Zeroes(r.info.length - |r.rest|);
    OnePiece(lim, r.info, r.rest + fill);
    SkimmedAppend(lim, info, data, fill);
    SkipsAppend(lim, info, data, fill);
  }

  lemma NothingLeft(lim: Limits, info: Info, data: Item, more: Item)
    requires info.Valid() && Skimmed(lim, info, data).rest == []
    ensures var next := Skimmed(lim, info, data).info;
      && |Skimmed(lim, info, data + more).packs| >= |Skimmed(lim, next, more).packs|
      && Skips(lim, info, data + more) == Skips(lim, info, data) + Skips(lim, next, more)
  {
    var r := Skimmed(lim, info, data);
    SkimmedAppend(lim, info, data, more);
    SkipsAppend(lim, info, data, more);
    assert r.rest + more == more;
  }

  /** Any bytes can be followed by others that make up a packet. */
  lemma SomePacket(lim: Limits, info: Info, data: Item) returns (later: Item)
    requires lim.Valid() && info.Valid()
    ensures Skimmed(lim, info, data + later).packs != [] && Skips(lim, info, data + later) <= Skips(lim, info, data) + 1
  {
    var fill := Filled(lim, info, data);
    var more := PacketAfter(lim, Skimmed(lim, info, data + fill).info);
    NothingLeft(lim, info, data + fill, more);
    later := fill + more;
    assert data + fill + more == data + later;
  }

  function Zeroes(n: nat): (z: Item)
    ensures |z| == n
  {
    if n == 0 then [] else Zeroes(n - 1) + [0]
  }

  // ---------------------------------------------------------------- receive calls

  /** One receive call after the other; nothing is read after a rejection. */
  function Fed(lim: Limits, info: Info, rest: Item, chunks: seq<Item>): (r: Parse)
    requires info.Valid()
    decreases |chunks|
  {
    var r := Parsed(lim, info, rest);
    if chunks == [] || r.bad then r
    else Fed(lim, r.info, r.rest + chunks[0], chunks[1..]).Before(r.packs)
  }

  /** However a byte stream is split into receive calls, the same packets come out; a bad
      header stops at the same place, and otherwise the same bytes are left over. */
  lemma {:induction false} ChunksDoNotMatter(lim: Limits, info: Info, rest: Item, chunks: seq<Item>)
    requires info.Valid()
    ensures var r, whole := Fed(lim, info, rest, chunks), Parsed(lim, info, rest + Flatten(chunks));
      && r.packs == whole.packs && r.bad == whole.bad && r.info == whole.info
      && (!r.bad ==> r.rest == whole.rest)
      && (r.bad ==> r.rest <= whole.rest)
    decreases |chunks|
  {
    var r := Parsed(lim, info, rest);
    ParsedAppend(lim, info, rest, Flatten(chunks));
    if chunks == [] {
      assert rest + Flatten(chunks) == rest;
    } else if !r.bad {
      ChunksDoNotMatter(lim, r.info, r.rest + chunks[0], chunks[1..]);
      assert r.rest + chunks[0] + Flatten(chunks[1..]) == r.rest + Flatten(chunks);
    }
  }

  // ---------------------------------------------------------------- the printer

  function Frame(lim: Limits, payload: Item): Item
    requires lim.Valid() && |payload| <= LENGTH_MASK
  {
    HeaderRoundTrip(lim.flag, |payload|);
    Put(Header(lim.flag, |payload|)) + payload
  }

  predicate Sendable(lim: Limits, payload: Item) { 0 < |payload| <= lim.maxSize }

  predicate AllSendable(lim: Limits, payloads: seq<Item>) {
    forall i | 0 <= i < |payloads| :: Sendable(lim, payloads[i])
  }

  function Stream(lim: Limits, payloads: seq<Item>): Item
    requires lim.Valid() && AllSendable(lim, payloads)
  {
    if payloads == [] then [] else Frame(lim, payloads[0]) + Stream(lim, payloads[1..])
  }

  /** The receiver's settings accept what the sender's produce. */
  predicate Matches(send: Limits, recv: Limits) {
    && send.Valid() && recv.Valid() && send.maxSize <= recv.maxSize && (recv.flag == 0 || recv.flag == send.flag)
  }

  /** A whole frame in front. */
  lemma FrameFirst(send: Limits, recv: Limits, p: Item, more: Item)
    requires Matches(send, recv) && Sendable(send, p)
    ensures Parsed(recv, FRESH, Frame(send, p) + more) == Parsed(recv, FRESH, more).Before([p])
  {
    var h := Header(send.flag, |p|);
    HeaderRoundTrip(send.flag, |p|);
    GetPut(h);
    var data := Frame(send, p) + more;
    assert data[..HEADER_SIZE] == Put(h) && data[HEADER_SIZE..] == p + more;
    assert !Rejected(recv, h);
    assert (p + more)[..|p|] == p && (p + more)[|p|..] == more;
    assert Parsed(recv, FRESH, data) == Parsed(recv, Info(false, |p|), p + more);
  }

  /** A frame that has not all arrived yields nothing. */
  lemma FramePart(send: Limits, recv: Limits, p: Item, n: nat)
    requires Matches(send, recv) && Sendable(send, p) && n < |Frame(send, p)|
    ensures Parsed(recv, FRESH, Frame(send, p)[..n]).packs == [] && !Parsed(recv, FRESH, Frame(send, p)[..n]).bad
  {
    var h := Header(send.flag, |p|);
    HeaderRoundTrip(send.flag, |p|);
    GetPut(h);
    var data := Frame(send, p)[..n];
    if n >= HEADER_SIZE {
      assert data[..HEADER_SIZE] == Put(h);
      assert !Rejected(recv, h);
      assert Parsed(recv, FRESH, data) == Parsed(recv, Info(false, |p|), data[HEADER_SIZE..]);
    }
  }

  /** How many of the payloads lie wholly in the first `n` bytes of their stream. */
  function Whole(lim: Limits, payloads: seq<Item>, n: nat): (k: nat)
    requires lim.Valid() && AllSendable(lim, payloads)
    ensures k <= |payloads|
  {
    if payloads == [] || n < |Frame(lim, payloads[0])| then 0
    else 1 + Whole(lim, payloads[1..], n - |Frame(lim, payloads[0])|)
  }

  /** End to end: whatever part of the sent stream has arrived, in whatever pieces, the
      packets delivered are exactly the payloads that have arrived whole, from the first
      on, and no header is rejected; once all has arrived, nothing is left over. */
  lemma {:induction false} EndToEnd(send: Limits, recv: Limits, payloads: seq<Item>, n: nat)
    requires Matches(send, recv) && AllSendable(send, payloads)
    requires n <= |Stream(send, payloads)|
    ensures var r := Parsed(recv, FRESH, Stream(send, payloads)[..n]);
      && !r.bad && r.packs == payloads[..Whole(send, payloads, n)]
      && (n == |Stream(send, payloads)| ==> r.packs == payloads && r.info == FRESH && r.rest == [])
    decreases |payloads|
  {
    if payloads != [] {
      var size := |Frame(send, payloads[0])|;
      StreamCut(send, payloads, n);
      if n < size {
        FramePart(send, recv, payloads[0], n);
      } else {
        EndToEnd(send, recv, payloads[1..], n - size);
        FrameFirst(send, recv, payloads[0], Stream(send, payloads[1..])[..n - size]);
        TakeCons(payloads, Whole(send, payloads[1..], n - size));
      }
    }
  }

  lemma TakeCons(payloads: seq<Item>, k: nat)
    requires k < |payloads|
    ensures payloads == [payloads[0]] + payloads[1..] && payloads[..k + 1] == [payloads[0]] + payloads[1..][..k]
  {
  }

  lemma StreamCut(lim: Limits, payloads: seq<Item>, n: nat)
    requires lim.Valid() && AllSendable(lim, payloads) && payloads != [] && n <= |Stream(lim, payloads)|
    ensures var f, more := Frame(lim, payloads[0]), Stream(lim, payloads[1..]);
      Stream(lim, payloads)[..n] == if n < |f| then f[..n] else f + more[..n - |f|]
  {
  }

  /** The same for the pieces in which the bytes arrived. */
  lemma EndToEndInChunks(send: Limits, recv: Limits, payloads: seq<Item>, chunks: seq<Item>)
    requires Matches(send, recv) && AllSendable(send, payloads)
    requires Flatten(chunks) <= Stream(send, payloads)
    ensures var r := Fed(recv, FRESH, [], chunks);
      !r.bad && r.packs == payloads[..Whole(send, payloads, |Flatten(chunks)|)]
  {
    var n := |Flatten(chunks)|;
    EndToEnd(send, recv, payloads, n);
    ChunksDoNotMatter(recv, FRESH, [], chunks);
    assert [] + Flatten(chunks) == Flatten(chunks) == Stream(send, payloads)[..n];
  }
}
