/** AddPackHeader and ParsePack as they run, against the functions of PackFraming. */
module PackIo {
  import opened Bytes
  import opened Bits
  import opened PackFraming

  datatype EnHandleResult = HR_OK | HR_IGNORE | HR_ERROR

  /** The number of bytes in a list of buffers. */
  function Total(bufs: seq<Item>): nat { |Flatten(bufs)| }

  /** The header goes in front of the buffers. The length is summed in a DWORD: what is
      tested, and what the header says, is the true sum modulo 2^32. */
  method AddPackHeader(bufs: seq<Item>, buffers: array<Item>, lim: Limits) returns (ok: bool)
    requires buffers.Length == |bufs| + 1 && lim.Valid()
    modifies buffers
    ensures ok <==> 0 < Total(bufs) % DWORD <= lim.maxSize
    ensures ok ==> Header(lim.flag, Total(bufs) % DWORD) < DWORD
    ensures ok ==> buffers[..] == [Put(Header(lim.flag, Total(bufs) % DWORD))] + bufs
  {
    var length := 0;
    for i := 0 to |bufs|
      invariant length == Total(bufs[..i]) % DWORD
      invariant buffers[1..i + 1] == bufs[..i]
    {
      buffers[i + 1] := bufs[i];
      FlattenTake(bufs, i);
      AddModulo(Total(bufs[..i]), |bufs[i]|);
      length := (length + |bufs[i]|) % DWORD;
      assert buffers[1..i + 2] == buffers[1..i + 1] + [bufs[i]];
    }
    assert bufs[..|bufs|] == bufs;
    if length == 0 || length > lim.maxSize {
      return false;
    }
    HeaderRoundTrip(lim.flag, length);
    buffers[0] := Put(Header(lim.flag, length));
    assert buffers[1..] == buffers[1..|bufs| + 1] == bufs;
    return true;
  }

  lemma AddModulo(x: nat, y: nat)
    ensures (x % DWORD + y) % DWORD == (x + y) % DWORD
  {
  }

  /** What an accepted send puts on the wire. */
  function Wire(lim: Limits, bufs: seq<Item>): Item
    requires lim.Valid() && 0 < Total(bufs) % DWORD <= lim.maxSize
  {
    HeaderRoundTrip(lim.flag, Total(bufs) % DWORD);
    Flatten([Put(Header(lim.flag, Total(bufs) % DWORD))] + bufs)
  }

  lemma WireIs(lim: Limits, bufs: seq<Item>)
    requires lim.Valid() && 0 < Total(bufs) % DWORD <= lim.maxSize
    ensures Header(lim.flag, Total(bufs) % DWORD) < DWORD
    ensures Wire(lim, bufs) == Put(Header(lim.flag, Total(bufs) % DWORD)) + Flatten(bufs)
  {
    HeaderRoundTrip(lim.flag, Total(bufs) % DWORD);
    FlattenCons(Put(Header(lim.flag, Total(bufs) % DWORD)), bufs);
  }

  lemma BelowModulo(x: nat)
    ensures x % DWORD == x <==> x < DWORD
  {
  }

  /** An accepted send is the frame of its payload exactly when the true sum is below
      2^32; above, the header announces a shorter packet, and the receiver reads headers
      out of the middle of the payload. */
  lemma WireIsFrame(lim: Limits, bufs: seq<Item>)
    requires lim.Valid() && 0 < Total(bufs) % DWORD <= lim.maxSize
    ensures (Sendable(lim, Flatten(bufs)) && Wire(lim, bufs) == Frame(lim, Flatten(bufs))) <==> Total(bufs) < DWORD
  {
    var n := Total(bufs) % DWORD;
    BelowModulo(Total(bufs));
    if Total(bufs) < DWORD {
      WireIs(lim, bufs);
      assert Frame(lim, Flatten(bufs)) == Put(Header(lim.flag, n)) + Flatten(bufs);
    }
  }

  /** What the receiver makes of such an overlong send: a packet of the announced length,
      and then the rest of the payload as if it were a stream of frames. */
  lemma OverlongSend(send: Limits, recv: Limits, bufs: seq<Item>)
    requires Matches(send, recv) && 0 < Total(bufs) % DWORD <= send.maxSize && Total(bufs) >= DWORD
    ensures var n, all := Total(bufs) % DWORD, Flatten(bufs);
      Parsed(recv, FRESH, Wire(send, bufs)) == Parsed(recv, FRESH, all[n..]).Before([all[..n]])
  {
    var n, all := Total(bufs) % DWORD, Flatten(bufs);
    WireIs(send, bufs);
    FrameFirst(send, recv, all[..n], all[n..]);
    assert Wire(send, bufs) == Frame(send, all[..n]) + all[n..];
  }

  /** So the receiver gets just that packet if and only if the true sum is below 2^32. */
  lemma WireArrivesIff(send: Limits, recv: Limits, bufs: seq<Item>)
    requires Matches(send, recv) && 0 < Total(bufs) % DWORD <= send.maxSize
    ensures Parsed(recv, FRESH, Wire(send, bufs)) == Parse([Flatten(bufs)], FRESH, [], false) <==> Total(bufs) < DWORD
  {
    var n, all := Total(bufs) % DWORD, Flatten(bufs);
    BelowModulo(Total(bufs));
    if Total(bufs) < DWORD {
      WireIsFrame(send, bufs);
      FrameFirst(send, recv, all, []);
      assert Frame(send, all) + [] == Frame(send, all);
    } else {
      OverlongSend(send, recv, bufs);
      assert |all[..n]| < |all|;
      assert Parsed(recv, FRESH, Wire(send, bufs)).packs[0] == all[..n];
    }
  }

  // ---------------------------------------------------------------- pieces

  /** How many pieces, headers and payloads, `data` holds, up to a rejected header. */
  function Pieces(lim: Limits, info: Info, data: Item): nat
    requires info.Valid()
    decreases |data|
  {
    if |data| < info.length then 0
    else
      var chunk, rest := data[..info.length], data[info.length..];
      if !info.header then 1 + Pieces(lim, FRESH, rest)
      else if Rejected(lim, Get(chunk)) then 1
      else
        LengthIsRemainder(Get(chunk));
        1 + Pieces(lim, Info(false, LengthOf(Get(chunk))), rest)
  }

  /** What the first `n` pieces give, and what is left after them. */
  function Taken(lim: Limits, info: Info, data: Item, n: nat): (r: Parse)
    requires info.Valid() && n <= Pieces(lim, info, data)
    ensures r.info.Valid() && |r.rest| <= |data|
    decreases n
  {
    if n == 0 then Parse([], info, data, false)
    else
      var chunk, rest := data[..info.length], data[info.length..];
      if !info.header then Taken(lim, FRESH, rest, n - 1).Before([chunk])
      else if Rejected(lim, Get(chunk)) then Parse([], info, rest, true)
      else
        LengthIsRemainder(Get(chunk));
        Taken(lim, Info(false, LengthOf(Get(chunk))), rest, n - 1)
  }

  /** One piece more. */
  lemma {:induction false} TakenMore(lim: Limits, info: Info, data: Item, n: nat)
    requires info.Valid() && n < Pieces(lim, info, data)
    ensures var t, next := Taken(lim, info, data, n), Taken(lim, info, data, n + 1);
      && !t.bad && |t.rest| >= t.info.length
      && Pieces(lim, info, data) == n + Pieces(lim, t.info, t.rest)
      && next == Taken(lim, t.info, t.rest, 1).Before(t.packs)
    decreases n
  {
    if n == 0 {
      var r := Taken(lim, info, data, 1);
      assert [] + r.packs == r.packs;
    } else {
      var chunk, rest := data[..info.length], data[info.length..];
      if !info.header {
        TakenMore(lim, FRESH, rest, n - 1);
        var t := Taken(lim, FRESH, rest, n - 1);
        BeforeTwice(Taken(lim, t.info, t.rest, 1), t.packs, [chunk]);
      } else {
        LengthIsRemainder(Get(chunk));
        TakenMore(lim, Info(false, LengthOf(Get(chunk))), rest, n - 1);
      }
    }
  }

  /** The single piece in front. */
  lemma OnePieceTaken(lim: Limits, info: Info, data: Item)
    requires info.Valid() && |data| >= info.length
    ensures var chunk, rest := data[..info.length], data[info.length..];
      && Pieces(lim, info, data) >= 1
      && Taken(lim, info, data, 1) == (
           if !info.header then Parse([chunk], FRESH, rest, false)
           else if Rejected(lim, Get(chunk)) then Parse([], info, rest, true)
           else Parse([], Info(false, LengthOf(Get(chunk))), rest, false))
      && (info.header && !Rejected(lim, Get(chunk)) ==> 0 < LengthOf(Get(chunk)) <= LENGTH_MASK)
  {
    var chunk, rest := data[..info.length], data[info.length..];
    if !info.header {
      assert Taken(lim, FRESH, rest, 0).Before([chunk]) == Parse([chunk], FRESH, rest, false);
    } else {
      LengthIsRemainder(Get(chunk));
    }
  }

  /** What is parsed after some pieces were taken is the rest of the whole parse. */
  lemma {:induction false} TakenThenParsed(lim: Limits, info: Info, data: Item, n: nat)
    requires info.Valid() && n <= Pieces(lim, info, data)
    ensures var t := Taken(lim, info, data, n);
      Parsed(lim, info, data) == if t.bad then t else Parsed(lim, t.info, t.rest).Before(t.packs)
    decreases n
  {
    if n == 0 {
      var r := Parsed(lim, info, data);
      assert [] + r.packs == r.packs;
    } else {
      var chunk, rest := data[..info.length], data[info.length..];
      if !info.header {
        TakenThenParsed(lim, FRESH, rest, n - 1);
        var t := Taken(lim, FRESH, rest, n - 1);
        BeforeTwice(Parsed(lim, t.info, t.rest), t.packs, [chunk]);
      } else if !Rejected(lim, Get(chunk)) {
        LengthIsRemainder(Get(chunk));
        TakenThenParsed(lim, Info(false, LengthOf(Get(chunk))), rest, n - 1);
      }
    }
  }

  lemma {:induction false} AllTaken(lim: Limits, info: Info, data: Item)
    requires info.Valid()
    ensures Taken(lim, info, data, Pieces(lim, info, data)) == Parsed(lim, info, data)
    decreases |data|
  {
    if |data| >= info.length {
      var chunk, rest := data[..info.length], data[info.length..];
      if !info.header {
        AllTaken(lim, FRESH, rest);
      } else if !Rejected(lim, Get(chunk)) {
        LengthIsRemainder(Get(chunk));
        AllTaken(lim, Info(false, LengthOf(Get(chunk))), rest);
      }
    }
  }

  /** The answers to the packets, before the last one: no error. The last one is the result,
      unless a header was rejected. */
  ghost predicate Answers(packs: seq<Item>, bad: bool, rs: EnHandleResult, answer: nat -> EnHandleResult) {
    && (forall i | 0 <= i < |packs| - 1 :: !answer(i).HR_ERROR?)
    && (bad && packs != [] ==> !answer(|packs| - 1).HR_ERROR?)
    && rs == if bad then HR_ERROR else if packs == [] then HR_OK else answer(|packs| - 1)
  }

  /** How a call of the loop ends: it took the first `turns` pieces, each after finding the
      pause flag clear; it stopped at a rejected header, or at a refused packet, or when it
      found the flag set, or for lack of bytes. */
  ghost predicate Stops(lim: Limits, info: Info, data: Item, info': Info, data': Item, packs: seq<Item>, turns: nat,
      rs: EnHandleResult, paused: nat -> bool, answer: nat -> EnHandleResult)
    requires info.Valid()
  {
    && turns <= Pieces(lim, info, data) && (forall i | 0 <= i < turns :: !paused(i))
    && var t := Taken(lim, info, data, turns);
    && packs == t.packs && data' == t.rest && Answers(packs, t.bad, rs, answer)
    && (!rs.HR_ERROR? ==> info' == t.info && (turns == Pieces(lim, info, data) || paused(turns)))
  }

  /** So a paused reader takes nothing... */
  lemma PausedTakesNothing(lim: Limits, info: Info, data: Item, info': Info, data': Item, packs: seq<Item>, turns: nat,
      rs: EnHandleResult, paused: nat -> bool, answer: nat -> EnHandleResult)
    requires info.Valid() && Stops(lim, info, data, info', data', packs, turns, rs, paused, answer) && paused(0)
    ensures turns == 0 && packs == [] && data' == data && info' == info && rs == HR_OK
  {
  }

  /** ...and one that goes on delivers what the parse of all the bytes gives. */
  lemma StopsIsPart(lim: Limits, info: Info, data: Item, info': Info, data': Item, packs: seq<Item>, turns: nat,
      rs: EnHandleResult, paused: nat -> bool, answer: nat -> EnHandleResult)
    requires info.Valid() && Stops(lim, info, data, info', data', packs, turns, rs, paused, answer)
    ensures var whole := Parsed(lim, info, data);
      && packs <= whole.packs
      && (!rs.HR_ERROR? ==> info'.Valid() && whole == Parsed(lim, info', data').Before(packs))
      && ((forall i :: !paused(i)) && !rs.HR_ERROR? ==> whole == Parse(packs, info', data', false) && |data'| < info'.length)
      && ((forall i :: !answer(i).HR_ERROR?) && rs.HR_ERROR? ==> whole.bad && packs == whole.packs && data' == whole.rest)
  {
    TakenThenParsed(lim, info, data, turns);
    if turns == Pieces(lim, info, data) { AllTaken(lim, info, data); }
  }

  /** Between two turns of the loop. */
  ghost predicate Underway(lim: Limits, info: Info, data: Item, info': Info, data': Item, packs: seq<Item>, turns: nat,
      rs: EnHandleResult, paused: nat -> bool, answer: nat -> EnHandleResult)
    requires info.Valid()
  {
    && info'.Valid() && turns <= Pieces(lim, info, data) && Taken(lim, info, data, turns) == Parse(packs, info', data', false)
    && Pieces(lim, info, data) == turns + Pieces(lim, info', data')
    && (forall i | 0 <= i < turns :: !paused(i)) && (forall i | 0 <= i < |packs| :: !answer(i).HR_ERROR?)
    && rs == if packs == [] then HR_OK else answer(|packs| - 1)
  }

  lemma TurnEnds(lim: Limits, info: Info, data: Item, info': Info, data': Item, packs: seq<Item>, turns: nat,
      rs: EnHandleResult, paused: nat -> bool, answer: nat -> EnHandleResult)
    requires info.Valid() && Underway(lim, info, data, info', data', packs, turns, rs, paused, answer)
    requires |data'| < info'.length || paused(turns)
    ensures Stops(lim, info, data, info', data', packs, turns, rs, paused, answer)
  {
  }

  /** A turn that takes a header... */
  lemma HeaderTurn(lim: Limits, info: Info, data: Item, info': Info, data': Item, packs: seq<Item>, turns: nat,
      rs: EnHandleResult, paused: nat -> bool, answer: nat -> EnHandleResult)
    requires info.Valid() && Underway(lim, info, data, info', data', packs, turns, rs, paused, answer)
    requires |data'| >= info'.length && info'.header && !paused(turns)
    ensures var word, rest := Get(data'[..HEADER_SIZE]), data'[HEADER_SIZE..];
      if Rejected(lim, word) then Stops(lim, info, data, info', rest, packs, turns + 1, HR_ERROR, paused, answer)
      else Underway(lim, info, data, Info(false, LengthOf(word)), rest, packs, turns + 1, rs, paused, answer)
  {
    OnePieceTaken(lim, info', data');
    TakenMore(lim, info, data, turns);
    assert packs + [] == packs;
  }

  /** ...or a payload. */
  lemma PayloadTurn(lim: Limits, info: Info, data: Item, info': Info, data': Item, packs: seq<Item>, turns: nat,
      rs: EnHandleResult, paused: nat -> bool, answer: nat -> EnHandleResult)
    requires info.Valid() && Underway(lim, info, data, info', data', packs, turns, rs, paused, answer)
    requires |data'| >= info'.length && !info'.header && !paused(turns)
    ensures var more, rest, last := packs + [data'[..info'.length]], data'[info'.length..], answer(|packs|);
      if last.HR_ERROR? then Stops(lim, info, data, info', rest, more, turns + 1, last, paused, answer)
      else Underway(lim, info, data, FRESH, rest, more, turns + 1, last, paused, answer)
  {
    OnePieceTaken(lim, info', data');
    TakenMore(lim, info, data, turns);
  }

  datatype Option<T> = None | Some(value: T)

  /** The tests of a header: its flag, unless none is configured, and then its length. */
  method ReadHeader(lim: Limits, word: nat) returns (len: Option<nat>)
    ensures len == if Rejected(lim, word) then None else Some(LengthOf(word))
  {
    if lim.flag != 0 {
      var flag := FlagOf(word);
      if flag != lim.flag {
        return None;
      }
    }
    var n := LengthOf(word);
    if n == 0 || n > lim.maxSize {
      return None;
    }
    return Some(n);
  }

  /** TPackInfo and the TBuffer it points to, of one connection. */
  class PackReader {
    const lim: Limits
    var header: bool
    var length: nat
    var buffer: Item

    constructor (lim: Limits)
      ensures Valid() && this.lim == lim && GetInfo() == FRESH && buffer == []
    {
      this.lim := lim;
      header, length, buffer := true, HEADER_SIZE, [];
    }

    ghost predicate Valid()
      reads this
    {
      GetInfo().Valid()
    }

    function GetInfo(): Info
      reads this
    {
      Info(header, length)
    }

    /** The loop of ParsePack. `paused(i)` is the pause flag as found by the i-th test,
        `answer(i)` the listener's answer to the i-th packet of this call; `packs` are the
        packets given to the listener, `turns` the tests of the flag that found it clear. */
    method ParsePack(paused: nat -> bool, answer: nat -> EnHandleResult)
        returns (rs: EnHandleResult, packs: seq<Item>, turns: nat)
      requires Valid()
      modifies this
      ensures Valid()
      ensures Stops(lim, old(GetInfo()), old(buffer), GetInfo(), buffer, packs, turns, rs, paused, answer)
    {
      rs, packs, turns := HR_OK, [], 0;
      var required := length;
      var remain := |buffer|;
      ghost var info, data := GetInfo(), buffer;
      while remain >= required
        invariant Valid() && required == length && remain == |buffer|
        invariant Underway(lim, info, data, GetInfo(), buffer, packs, turns, rs, paused, answer)
        decreases remain
      {
        if paused(turns) {
          break;
        }
        if header {
          HeaderTurn(lim, info, data, GetInfo(), buffer, packs, turns, rs, paused, answer);
        } else {
          PayloadTurn(lim, info, data, GetInfo(), buffer, packs, turns, rs, paused, answer);
        }
        turns := turns + 1;
        remain := remain - required;
        var chunk := buffer[..required];
        buffer := buffer[required..];
        if header {
          var word := Get(chunk);
          var len := ReadHeader(lim, word);
          if len.None? {
            return HR_ERROR, packs, turns;
          }
          required := len.value;
        } else {
          rs := answer(|packs|);
          packs := packs + [chunk];
          if rs == HR_ERROR {
            return rs, packs, turns;
          }
          required := HEADER_SIZE;
        }
        header := !header;
        length := required;
      }
      TurnEnds(lim, info, data, GetInfo(), buffer, packs, turns, rs, paused, answer);
    }

    /** The other overload: the received bytes are appended first. */
    method Receive(data: Item, paused: nat -> bool, answer: nat -> EnHandleResult)
        returns (rs: EnHandleResult, packs: seq<Item>, turns: nat)
      requires Valid()
      modifies this
      ensures Valid()
      ensures Stops(lim, old(GetInfo()), old(buffer) + data, GetInfo(), buffer, packs, turns, rs, paused, answer)
    {
      buffer := buffer + data;
      rs, packs, turns := ParsePack(paused, answer);
    }
  }

  lemma JoinedBefore(r: Parse, q: Parse, more: seq<Item>, later: Item)
    ensures Joined(r.Before(more), q, later) == Joined(r, q, later).Before(more)
  {
    BeforeTwice(q, r.packs, more);
  }

  /** What remains to be delivered after a receive call that went well. */
  lemma AfterChunk(lim: Limits, info: Info, data: Item, info': Info, data': Item, more: seq<Item>, later: Item)
    requires info.Valid() && info'.Valid() && Parsed(lim, info, data) == Parsed(lim, info', data').Before(more)
    ensures Parsed(lim, info, data + later) == Parsed(lim, info', data' + later).Before(more)
  {
    ParsedAppend(lim, info, data, later);
    ParsedAppend(lim, info', data', later);
    var r' := Parsed(lim, info', data');
    JoinedBefore(r', Parsed(lim, r'.info, r'.rest + later), more, later);
  }

  lemma AfterBadChunk(lim: Limits, info: Info, data: Item, later: Item)
    requires info.Valid() && Parsed(lim, info, data).bad
    ensures Parsed(lim, info, data + later).bad
    ensures Parsed(lim, info, data + later).packs == Parsed(lim, info, data).packs
  {
    ParsedAppend(lim, info, data, later);
  }

  /** Chunk after chunk through a reader that is never paused, with a listener that
      refuses nothing: the packets are those of the one-shot parse. */
  method ReadAll(lim: Limits, chunks: seq<Item>) returns (packs: seq<Item>, ok: bool)
    ensures var whole := Parsed(lim, FRESH, Flatten(chunks)); packs == whole.packs && ok == !whole.bad
  {
    var reader := new PackReader(lim);
    packs, ok := [], true;
    ghost var whole := Parsed(lim, FRESH, Flatten(chunks));
    assert reader.buffer + Flatten(chunks[0..]) == Flatten(chunks) by { assert chunks[0..] == chunks; }
    assert whole == whole.Before([]);
    for i := 0 to |chunks|
      invariant reader.Valid() && fresh(reader) && reader.lim == lim && |reader.buffer| < reader.length
      invariant whole == Parsed(lim, reader.GetInfo(), reader.buffer + Flatten(chunks[i..])).Before(packs)
    {
      ghost var info, data, later := reader.GetInfo(), reader.buffer + chunks[i], Flatten(chunks[i + 1..]);
      assert reader.buffer + Flatten(chunks[i..]) == data + later by {
        assert chunks[i..] == [chunks[i]] + chunks[i + 1..];
        FlattenCons(chunks[i], chunks[i + 1..]);
      }
      var rs, more, turns := reader.Receive(chunks[i], _ => false, _ => HR_OK);
      StopsIsPart(lim, info, data, reader.GetInfo(), reader.buffer, more, turns, rs, _ => false, _ => HR_OK);
      if rs.HR_ERROR? {
        AfterBadChunk(lim, info, data, later);
        return packs + more, false;
      }
      AfterChunk(lim, info, data, reader.GetInfo(), reader.buffer, more, later);
      BeforeTwice(Parsed(lim, reader.GetInfo(), reader.buffer + later), more, packs);
      packs := packs + more;
    }
    assert reader.buffer + Flatten(chunks[|chunks|..]) == reader.buffer;
  }
}
