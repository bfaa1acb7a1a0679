/** The PACK model from SendPackets to the listener at the other end: the sender's TCP
    connection, a FIFO byte channel, and the receiver with its parser and its pauses. */
module PackEndToEnd {
  import opened Bytes
  import opened PackFraming
  import opened PackIo
  import Tcp = TcpConnection
  import Proof = TcpConnectionInvariant
  import Theorems = TcpConnectionTheorems
  import Receiver = PackPause
  import Pauses = PackPauseTheorems
  import Late = PackPauseLate

  // ---------------------------------------------------------------- the calls

  /** What AddPackHeader makes of buffers within the limits: the header first. */
  predicate Packed(lim: Limits, bufs: seq<Item>)
    requires lim.Valid()
  {
    && bufs != [] && 0 < Total(bufs[1..]) <= lim.maxSize
    && Header(lim.flag, Total(bufs[1..])) < DWORD && bufs[0] == Put(Header(lim.flag, Total(bufs[1..])))
  }

  function Payload(call: Item): Item { if |call| < HEADER_SIZE then [] else call[HEADER_SIZE..] }

  /** The payloads of the calls, in order. */
  function Payloads(calls: seq<Item>): (p: seq<Item>)
    ensures |p| == |calls|
  {
    if calls == [] then [] else [Payload(calls[0])] + Payloads(calls[1..])
  }

  predicate IsFrame(lim: Limits, call: Item)
    requires lim.Valid()
  {
    Sendable(lim, Payload(call)) && call == Frame(lim, Payload(call))
  }

  /** What AddPackHeader accepts is of this form exactly while the true sum is below 2^32. */
  lemma AcceptedIsPacked(lim: Limits, bufs: seq<Item>)
    requires lim.Valid() && 0 < Total(bufs) % DWORD <= lim.maxSize && Header(lim.flag, Total(bufs) % DWORD) < DWORD
    ensures Packed(lim, [Put(Header(lim.flag, Total(bufs) % DWORD))] + bufs) <==> Total(bufs) < DWORD
  {
    assert ([Put(Header(lim.flag, Total(bufs) % DWORD))] + bufs)[1..] == bufs;
    BelowModulo(Total(bufs));
  }

  lemma PackedIsFrame(lim: Limits, bufs: seq<Item>)
    requires lim.Valid() && Packed(lim, bufs)
    ensures IsFrame(lim, Flatten(bufs))
  {
    assert Flatten(bufs) == bufs[0] + Flatten(bufs[1..]);
  }

  lemma {:induction false} CallsAreStream(lim: Limits, calls: seq<Item>)
    requires lim.Valid() && forall c | c in calls :: IsFrame(lim, c)
    ensures AllSendable(lim, Payloads(calls)) && Stream(lim, Payloads(calls)) == Flatten(calls)
    decreases |calls|
  {
    if calls != [] {
      CallsAreStream(lim, calls[1..]);
      assert IsFrame(lim, calls[0]);
      assert Payloads(calls)[1..] == Payloads(calls[1..]);
    }
  }

  // ---------------------------------------------------------------- the sender

  /** Every caller of SendPackets passes what AddPackHeader made, and what OnAccept had sent
      before was made by it too. */
  ghost predicate SendsPacks(lim: Limits, tr: seq<Tcp.State>)
    requires lim.Valid() && tr != []
  {
    && (forall c | c in tr[0].calls :: IsFrame(lim, c))
    && forall i, k | 0 <= i < |tr| && 0 <= k < |tr[i].senders| && !tr[i].senders[k].SIdle? :: Packed(lim, tr[i].senders[k].bufs)
  }

  /** The calls that appended anything, in the order in which they took the send lock: those
      that are finished, and the one that owns it. */
  function Begun(s: Tcp.State): seq<Item> {
    s.calls +
    if (s.send.BySender? || s.send.Nested?) && s.send.k < |s.senders| && Proof.InSend(s.senders[s.send.k])
    then [Flatten(s.senders[s.send.k].bufs)] else []
  }

  lemma StepCalls(s: Tcp.State, s': Tcp.State)
    requires Proof.Inv(s) && Tcp.Step(s, s')
    ensures s'.calls == s.calls || exists k | 0 <= k < |s.senders| :: s.senders[k].SUnlock? && s'.calls == s.calls + [Flatten(s.senders[k].bufs)]
  {
    var a :| Tcp.Enabled(s, a) && s' == Tcp.Next(s, a);
    if a.Work? && !s.workers[a.w].Idle? {
      assert Proof.WorkerOk(s, a.w);
      Proof.WorkFacts(s, a.w, a.ans);
    } else if a.SendStep? && s.senders[a.k].SUnlock? {
      assert s'.calls == s.calls + [Flatten(s.senders[a.k].bufs)];
    }
  }

  lemma {:induction false} CallsAreFrames(lim: Limits, tr: seq<Tcp.State>, i: nat)
    requires lim.Valid() && Tcp.Run(tr) && SendsPacks(lim, tr) && i < |tr|
    ensures forall c | c in tr[i].calls :: IsFrame(lim, c)
  {
    if i > 0 {
      CallsAreFrames(lim, tr, i - 1);
      Theorems.RunKeepsInv(tr, i - 1);
      assert Tcp.StepAt(tr, i);
      StepCalls(tr[i - 1], tr[i]);
      if tr[i].calls != tr[i - 1].calls {
        var k :| 0 <= k < |tr[i - 1].senders| && tr[i - 1].senders[k].SUnlock?
          && tr[i].calls == tr[i - 1].calls + [Flatten(tr[i - 1].senders[k].bufs)];
        PackedIsFrame(lim, tr[i - 1].senders[k].bufs);
      }
    }
  }

  /** What the socket took is the beginning of the stream of those payloads. */
  lemma WrittenIsStream(lim: Limits, tr: seq<Tcp.State>, i: nat)
    requires lim.Valid() && Tcp.Run(tr) && SendsPacks(lim, tr) && i < |tr|
    ensures AllSendable(lim, Payloads(Begun(tr[i]))) && tr[i].written <= tr[i].accepted <= Stream(lim, Payloads(Begun(tr[i])))
    ensures Begun(tr[i]) == tr[i].calls ==> tr[i].accepted == Stream(lim, Payloads(tr[i].calls))
  {
    var s := tr[i];
    CallsAreFrames(lim, tr, i);
    Theorems.CallsContiguous(tr, i);
    Theorems.BytesConserved(tr, i);
    if Begun(s) != s.calls {
      var call := Flatten(s.senders[s.send.k].bufs);
      PackedIsFrame(lim, s.senders[s.send.k].bufs);
      FlattenSnoc(s.calls, call);
    }
    CallsAreStream(lim, Begun(s));
  }

  // ---------------------------------------------------------------- the receiver

  lemma PartArrived(send: Limits, recv: Limits, payloads: seq<Item>, received: Item)
    requires Matches(send, recv) && AllSendable(send, payloads) && received <= Stream(send, payloads)
    ensures var r := Parsed(recv, FRESH, received);
      && !r.bad && r.packs == payloads[..Whole(send, payloads, |received|)]
      && (received == Stream(send, payloads) ==> r.packs == payloads)
  {
    assert received == Stream(send, payloads)[..|received|];
    EndToEnd(send, recv, payloads, |received|);
  }

  /** From end to end: whatever the schedules of both sides, short writes and reads, pauses
      and resumptions, the packets delivered are always the first ones of the payloads
      accepted by SendPackets, in the order of the send lock; the receiver never fails; and
      what it still holds are the next of those that have arrived whole. */
  lemma DeliveredInOrder(send: Limits, recv: Limits, tr: seq<Tcp.State>, i: nat, p: Receiver.State, acts: seq<Receiver.Action>, p': Receiver.State)
    requires Matches(send, recv) && Tcp.Run(tr) && SendsPacks(send, tr) && i < |tr|
    requires Receiver.Init(p) && p.lim == recv && Receiver.Runs(p, acts, p') && Late.NoRefusal(acts)
    requires p'.received <= tr[i].written
    ensures p'.delivered <= Payloads(Begun(tr[i]))
    ensures p'.failure.None? && !p'.entered && p'.info.Valid()
    ensures AllSendable(send, Payloads(Begun(tr[i])))
    ensures p'.delivered + Parsed(recv, p'.info, p'.buffer).packs
         == Payloads(Begun(tr[i]))[..Whole(send, Payloads(Begun(tr[i])), |p'.received|)]
  {
    Late.InitSkims(p);
    Late.RunSkims(p, acts, p');
    WrittenIsStream(send, tr, i);
    PartArrived(send, recv, Payloads(Begun(tr[i])), p'.received);
    Late.GoodStream(p, acts, p');
  }

  /** And nothing is left behind: when no call is in progress, everything accepted has
      arrived, and the receiver is neither paused nor at work, all payloads are delivered. */
  lemma AllDelivered(send: Limits, recv: Limits, tr: seq<Tcp.State>, i: nat, p: Receiver.State, acts: seq<Receiver.Action>, p': Receiver.State)
    requires Matches(send, recv) && Tcp.Run(tr) && SendsPacks(send, tr) && i < |tr| && Begun(tr[i]) == tr[i].calls
    requires Receiver.Init(p) && p.lim == recv && Receiver.Runs(p, acts, p') && Late.NoRefusal(acts)
    requires p'.received == tr[i].written == tr[i].accepted && p'.valid && !p'.paused && p'.cmds == 0
    requires forall q | 0 <= q < |p'.pausers| :: !p'.pausers[q].PSend?
    requires forall w | 0 <= w < |p'.workers| ::
      !p'.workers[w].CmdWant? && !p'.workers[w].CmdIn? && !Receiver.Parsing(p'.workers[w])
    ensures p'.delivered == Payloads(tr[i].calls)
  {
    DeliveredInOrder(send, recv, tr, i, p, acts, p');
    Pauses.NothingStranded(p, acts, p');
    WrittenIsStream(send, tr, i);
    Late.InitSkims(p);
    Late.RunSkims(p, acts, p');
    PartArrived(send, recv, Payloads(tr[i].calls), p'.received);
  }
}
