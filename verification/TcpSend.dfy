/** The send path of one connection as the owner of its send lock runs it: the item
    list, SendInternal, SendItem and HandleSend, with their loops. */
module TcpSend {
  import opened Bytes
  import TcpConnection

  /** A pooled buffer: its unsent bytes and the room left behind them. */
  datatype TItem = TItem(data: Item, room: nat)

  function Contents(items: seq<TItem>): Item {
    if items == [] then [] else items[0].data + Contents(items[1..])
  }

  lemma ContentsAppend(a: seq<TItem>, b: seq<TItem>)
    ensures Contents(a + b) == Contents(a) + Contents(b)
  {
    if a == [] {
      assert a + b == b;
    } else {
      assert (a + b)[1..] == a[1..] + b;
    }
  }

  lemma ContentsOne(x: TItem)
    ensures Contents([x]) == x.data
  {
    assert Contents([x]) == x.data + Contents([]);
  }

  lemma ContentsLast(items: seq<TItem>)
    requires items != []
    ensures Contents(items) == Contents(items[..|items| - 1]) + items[|items| - 1].data
  {
    var n := |items| - 1;
    ContentsAppend(items[..n], [items[n]]);
    ContentsOne(items[n]);
    assert items == items[..n] + [items[n]];
  }

  /** The item the next bytes go to, and the items before it. */
  function Open(items: seq<TItem>, capacity: nat): (seq<TItem>, TItem) {
    if items != [] && items[|items| - 1].room > 0
    then (items[..|items| - 1], items[|items| - 1])
    else (items, TItem([], capacity))
  }

  lemma OpenContents(items: seq<TItem>, capacity: nat)
    ensures Contents(items) == Contents(Open(items, capacity).0) + Open(items, capacity).1.data
  {
    if items != [] && items[|items| - 1].room > 0 {
      ContentsLast(items);
    }
  }

  lemma OpenFilled(items: seq<TItem>, capacity: nat, piece: Item, front: seq<TItem>, filled: TItem)
    requires front == Open(items, capacity).0 && filled.data == Open(items, capacity).1.data + piece
    ensures Contents(front + [filled]) == Contents(items) + piece
  {
    OpenContents(items, capacity);
    ContentsAppend(front, [filled]);
    ContentsOne(filled);
    Associates(Contents(front), Open(items, capacity).1.data, piece);
  }

  /** The last item may have been filled up, and further ones added behind it. */
  predicate Grown(before: seq<TItem>, after: seq<TItem>) {
    |before| <= |after| && forall i | 0 <= i < |before| - 1 :: after[i] == before[i]
  }

  /** From the last one of `before` on, all items but the last are full. */
  predicate Filled(before: seq<TItem>, items: seq<TItem>) {
    forall i | 0 <= i && |before| - 1 <= i < |items| - 1 :: items[i].room == 0
  }

  lemma OpenGrows(before: seq<TItem>, items: seq<TItem>, capacity: nat, filled: TItem)
    requires Grown(before, items) && Filled(before, items)
    ensures var items' := Open(items, capacity).0 + [filled]; Grown(before, items') && Filled(before, items')
  {
  }

  lemma Associates(a: Item, b: Item, c: Item)
    ensures a + (b + c) == a + b + c
  {
  }

  lemma StillConserved(written: Item, held: Item, queued: Item, more: Item)
    ensures written + (held + queued) + more == written + (held + (queued + more))
  {
    Associates(held, queued, more);
    Associates(written, held + queued, more);
  }

  lemma Advance(item: Item, k: nat, n: nat)
    requires k + n <= |item|
    ensures item[..k + n] == item[..k] + item[k..][..n]
    ensures item[k..] == item[k..][..n] + item[k + n..] && item[k..][n..] == item[k + n..]
  {
  }

  /** After `n` items were popped, those behind them are still there, in front of any new
      ones, but for the last one, which may have been filled up. */
  predicate Left(before: seq<TItem>, n: nat, after: seq<TItem>) {
    |before| <= n + |after| && forall i | n <= i < |before| - 1 :: after[i - n] == before[i]
  }

  lemma Longer(a: Item, b: Item, c: Item)
    requires a <= b <= c
    ensures a <= c
  {
  }

  lemma LeftMore(before: seq<TItem>, n: nat, q: seq<TItem>, after: seq<TItem>)
    requires Left(before, n, q) && q != [] && Grown(q[1..], after)
    ensures Left(before, n + 1, after)
  {
    forall i | n + 1 <= i < |before| - 1 ensures after[i - n - 1] == before[i] {
      assert after[i - n - 1] == q[1..][i - n - 1] == q[i - n];
    }
  }

  predicate NoEmptyItem(items: seq<TItem>) { forall i | 0 <= i < |items| :: items[i].data != [] }

  /** How one write went. */
  datatype WriteResult = Wrote(n: nat) | WouldBlock | Failed

  class Connection {
    const capacity: nat
    var items: seq<TItem>             // sndBuff
    var valid: bool
    var commands: nat                 // DISP_CMD_SEND queued so far
    /** What the listener passes to SendPackets inside its coming OnSend callbacks. */
    var listener: seq<seq<Item>>
    ghost var accepted: Item
    ghost var written: Item
    ghost var notified: Item

    ghost predicate Valid()
      reads this
    {
      capacity > 0 && NoEmptyItem(items)
    }

    /** `held` is popped from the list and still to be written. */
    ghost predicate Conserved(held: Item)
      reads this
    {
      accepted == written + (held + Contents(items)) && notified == written
    }

    constructor (capacity: nat, listener: seq<seq<Item>>)
      requires capacity > 0
      ensures Valid() && valid && Conserved([]) && items == [] && commands == 0
      ensures this.capacity == capacity && this.listener == listener
    {
      this.capacity := capacity;
      this.listener := listener;
      items, valid, commands := [], true, 0;
      accepted, written, notified := [], [], [];
    }

    /** TItemList::Cat: fill the last item, then append fresh ones. */
    method Cat(data: Item)
      requires Valid()
      modifies this`items
      ensures Valid()
      ensures Contents(items) == old(Contents(items)) + data
      ensures Grown(old(items), items) && Filled(old(items), items)
    {
      var done := 0;
      while done < |data|
        invariant 0 <= done <= |data|
        invariant Valid()
        invariant Contents(items) == old(Contents(items)) + data[..done]
        invariant Grown(old(items), items) && Filled(old(items), items)
      {
        var (front, back) := Open(items, capacity);
        var cat := if back.room < |data| - done then back.room else |data| - done;
        var filled := TItem(back.data + data[done..done + cat], back.room - cat);
        OpenFilled(items, capacity, data[done..done + cat], front, filled);
        OpenGrows(old(items), items, capacity, filled);
        assert data[..done + cat] == data[..done] + data[done..done + cat];
        items := front + [filled];
        done := done + cat;
      }
      assert data[..done] == data;
    }

    /** SendInternal, with the send lock held and the object valid. A command is queued
        exactly when the list was empty and no longer is. */
    method SendInternal(bufs: seq<Item>, ghost held: Item)
      requires Valid() && Conserved(held)
      modifies this`items, this`commands, this`accepted
      ensures Valid() && Conserved(held)
      ensures accepted == old(accepted) + Flatten(bufs)
      ensures Contents(items) == old(Contents(items)) + Flatten(bufs) && Grown(old(items), items)
      ensures commands == old(commands) + (if old(items) == [] && Flatten(bufs) != [] then 1 else 0)
    {
      var pending := items != [];
      var i := 0;
      while i < |bufs|
        invariant 0 <= i <= |bufs|
        invariant Valid() && commands == old(commands)
        invariant accepted == old(accepted) + Flatten(bufs[..i])
        invariant Contents(items) == old(Contents(items)) + Flatten(bufs[..i]) && Grown(old(items), items)
      {
        FlattenTake(bufs, i);
        Associates(old(accepted), Flatten(bufs[..i]), bufs[i]);
        Associates(old(Contents(items)), Flatten(bufs[..i]), bufs[i]);
        if |bufs[i]| > 0 {
          Cat(bufs[i]);
          accepted := accepted + bufs[i];
        }
        i := i + 1;
      }
      assert bufs[..i] == bufs;
      StillConserved(written, held, old(Contents(items)), Flatten(bufs));
      ContentsNonEmpty(items);
      ContentsNonEmpty(old(items));
      if !pending && items != [] {
        commands := commands + 1;
      }
    }

    /** The OnSend callback: the listener may send more, under the same lock. */
    method OnSend(ghost held: Item)
      requires Valid() && Conserved(held)
      modifies this`items, this`commands, this`accepted, this`listener
      ensures Valid() && Conserved(held)
      ensures |listener| <= |old(listener)|
      ensures |listener| == |old(listener)| ==> items == old(items)
      ensures Grown(old(items), items)
      ensures old(accepted) <= accepted
    {
      if listener != [] {
        var bufs := listener[0];
        listener := listener[1..];
        SendInternal(bufs, held);
      }
    }

    /** The socket took `n` bytes. */
    method Report(item: Item, n: nat) returns (rest: Item)
      requires Valid() && Conserved(item) && n <= |item|
      modifies this`items, this`commands, this`accepted, this`listener, this`written, this`notified
      ensures Valid() && Conserved(rest)
      ensures rest == item[n..] && written == old(written) + item[..n]
      ensures |listener| <= |old(listener)|
      ensures |listener| == |old(listener)| ==> items == old(items)
      ensures Grown(old(items), items)
      ensures old(accepted) <= accepted
    {
      rest := item[n..];
      assert item == item[..n] + rest;
      written := written + item[..n];
      notified := notified + item[..n];
      OnSend(rest);
    }

    /** SendItem: write the popped item until it is empty or the socket blocks. */
    method SendItem(item: Item) returns (ok: bool, rest: Item)
      requires Valid() && Conserved(item) && valid
      modifies this
      ensures Valid() && Conserved(rest) && ok == valid
      ensures old(written) <= written && old(accepted) <= accepted
      ensures |listener| <= |old(listener)|
      ensures |listener| == |old(listener)| ==> items == old(items) && |rest| <= |item|
      ensures Grown(old(items), items)
      ensures exists k | 0 <= k <= |item| :: rest == item[k..] && written == old(written) + item[..k]
    {
      ok, rest := true, item;
      ghost var k := 0;
      while rest != []
        invariant Valid() && Conserved(rest) && valid && ok
        invariant 0 <= k <= |item| && rest == item[k..] && written == old(written) + item[..k]
        invariant old(accepted) <= accepted
        invariant |listener| <= |old(listener)|
        invariant |listener| == |old(listener)| ==> items == old(items)
        invariant Grown(old(items), items)
        decreases |rest|
      {
        assert WouldBlock.WouldBlock?;
        var answer: WriteResult :| answer.Wrote? ==> 1 <= answer.n <= |rest|;
        match answer {
          case Wrote(n) =>
            Advance(item, k, n);
            k := k + n;
            rest := Report(rest, n);
          case WouldBlock =>
            break;
          case Failed =>
            valid, ok := false, false;
            break;
        }
      }
      assert rest == item[k..] && written == old(written) + item[..k];
    }

    /** Since the list was `before` and `w0` and `a0` the bytes written and accepted, `n` items
        were popped, and `left` is behind them. */
    ghost predicate Since(before: seq<TItem>, w0: Item, a0: Item, n: nat, left: seq<TItem>)
      reads this
    {
      w0 <= written && a0 <= accepted && notified == written <= accepted && Left(before, n, left)
    }

    /** One turn of HandleSend's loop: the front item is popped, written, and put back if
        something is left of it. */
    method SendFront(ghost before: seq<TItem>, ghost w0: Item, ghost a0: Item, ghost n: nat) returns (ok: bool, blocked: bool)
      requires Valid() && Conserved([]) && valid && items != [] && Since(before, w0, a0, n, items)
      modifies this
      ensures Valid() && ok == valid && (valid ==> Conserved([]))
      ensures blocked ==> ok && items != []
      ensures Since(before, w0, a0, n + 1, if blocked then items[1..] else items)
      ensures |listener| < |old(listener)| || (|listener| == |old(listener)| && (blocked || |items| < |old(items)|))
    {
      var item := items[0];
      items := items[1..];
      var rest;
      ok, rest := SendItem(item.data);
      Longer(w0, old(written), written);
      Longer(a0, old(accepted), accepted);
      LeftMore(before, n, old(items), items);
      blocked := ok && rest != [];
      if blocked {
        items := [item.(data := rest)] + items;
      }
    }

    /** HandleSend. `limited` is the absence of the hang-up flag: then at most 50 items are
        popped. Bytes are written strictly in order, a partly written item goes back to the
        front, and it stops early only when the socket blocks, fails, or the list is empty.
        The items behind those popped are where they were. */
    method HandleSend(limited: bool) returns (ok: bool, popped: nat, blocked: bool)
      requires Valid() && Conserved([]) && valid
      modifies this
      ensures Valid() && ok == valid
      ensures valid ==> Conserved([])
      ensures notified == written <= accepted
      ensures old(written) <= written && old(accepted) <= accepted
      ensures limited ==> popped <= 50
      ensures valid && !blocked ==> items == [] || (limited && popped == 50)
      ensures blocked ==> items != [] && popped > 0
      ensures Left(old(items), popped, if blocked then items[1..] else items)
    {
      ok, popped, blocked := true, 0, false;
      ghost var before, w0, a0 := items, written, accepted;
      while (popped < TcpConnection.MAX_CONTINUE_WRITES || !limited) && items != []
        invariant Valid() && valid && ok && Conserved([]) && !blocked
        invariant limited ==> popped <= TcpConnection.MAX_CONTINUE_WRITES
        invariant Since(before, w0, a0, popped, items)
        decreases |listener|, |items|
      {
        ok, blocked := SendFront(before, w0, a0, popped);
        popped := popped + 1;
        if !ok || blocked {
          break;
        }
      }
    }
  }

  lemma ContentsNonEmpty(items: seq<TItem>)
    requires NoEmptyItem(items)
    ensures items == [] <==> Contents(items) == []
  {
  }
}
