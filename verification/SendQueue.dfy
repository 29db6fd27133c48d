/** The queue of outgoing packets of a connection: send appends, the timer starts the first
    write, and each completed write starts the next.  Calls may interleave in any way. */
module SendQueue {
  import opened Bytes
  import opened Options

  /** A queued packet; id tells containers apart as their addresses do in the source. */
  datatype Container = Container(id: nat, data: seq<byte>, last: bool)

  /** accepted, written and freed record the history that the guarantees speak about. */
  datatype Queue = Queue(
    outq: seq<Container>, initPack: Option<Container>, canSend: bool, disconnectReq: bool,
    closed: bool, nextId: nat,
    accepted: seq<Container>, written: seq<Container>, freed: seq<Container>)

  datatype Event = Send(data: seq<byte>, last: bool) | OnTime | OnWrite | Disconnect

  const START := Queue([], None, true, false, false, 1, [], [], [])

  function AfterSend(q: Queue, data: seq<byte>, last: bool): Queue {
    if !q.canSend || q.disconnectReq then q
    else
      var c := Container(q.nextId, data, last);
      q.(nextId := q.nextId + 1, outq := q.outq + [c], accepted := q.accepted + [c],
         canSend := !last, initPack := if q.outq == [] then Some(c) else q.initPack)
  }

  function AfterOnTime(q: Queue): Queue {
    if q.disconnectReq then q.(closed := true)
    else if q.initPack.Some? then q.(written := q.written + [q.initPack.value], initPack := None)
    else q
  }

  function AfterOnWrite(q: Queue): Queue {
    if q.outq == [] || q.initPack == Some(q.outq[0]) then q
    else
      var c := q.outq[0];
      var r := q.(outq := q.outq[1..], freed := q.freed + [c]);
      if c.last then r.(disconnectReq := true)
      else if r.outq != [] then r.(written := r.written + [r.outq[0]])
      else r
  }

  /** Nothing is modelled after the timer has torn the connection down. */
  function Step(q: Queue, e: Event): Queue {
    if q.closed then q
    else match e
      case Send(data, last) => AfterSend(q, data, last)
      case OnTime => AfterOnTime(q)
      case OnWrite => AfterOnWrite(q)
      case Disconnect => q.(disconnectReq := true)
  }

  function Run(q: Queue, events: seq<Event>): Queue
    decreases |events|
  {
    if events == [] then q else Run(Step(q, events[0]), events[1..])
  }

  /** The front packet, when its write has been started. */
  function InFlight(q: Queue): seq<Container> {
    if q.outq == [] || q.initPack.Some? then [] else [q.outq[0]]
  }

  /** Accepted packets have rising ids, and only the last may ask to disconnect. */
  ghost predicate Ordered(accepted: seq<Container>, nextId: nat, canSend: bool) {
    && (forall i :: 0 <= i < |accepted| ==> accepted[i].id < nextId)
    && (forall i, j :: 0 <= i < j < |accepted| ==> accepted[i].id < accepted[j].id)
    && (forall i :: 0 <= i < |accepted| && accepted[i].last ==> i == |accepted| - 1 && !canSend)
    && (!canSend ==> accepted != [] && accepted[|accepted| - 1].last)
  }

  ghost predicate Inv(q: Queue) {
    && q.accepted == q.freed + q.outq
    && q.written == q.freed + InFlight(q)
    && (q.initPack.Some? ==> q.outq != [] && q.initPack.value == q.outq[0])
    && Ordered(q.accepted, q.nextId, q.canSend)
  }

  lemma SendKeepsInv(q: Queue, data: seq<byte>, last: bool)
    requires Inv(q)
    ensures Inv(AfterSend(q, data, last))
  {
    if q.canSend && !q.disconnectReq {
      var c := Container(q.nextId, data, last);
      assert q.accepted + [c] == q.freed + (q.outq + [c]);
      OrderedNext(q.accepted, c);
    }
  }

  lemma OrderedNext(accepted: seq<Container>, c: Container)
    requires Ordered(accepted, c.id, true)
    ensures Ordered(accepted + [c], c.id + 1, !c.last)
  {
  }

  lemma WriteKeepsInv(q: Queue)
    requires Inv(q)
    ensures Inv(AfterOnWrite(q))
  {
    if q.outq != [] && q.initPack != Some(q.outq[0]) {
      FrontFreed(q.accepted, q.freed, q.outq);
      LastIsAlone(q.accepted, q.freed, q.outq, q.nextId, q.canSend);
      assert q.initPack == None;
      assert q.freed + [q.outq[0]] + [] == q.freed + [q.outq[0]];
    }
  }

  lemma FrontFreed(accepted: seq<Container>, freed: seq<Container>, outq: seq<Container>)
    requires accepted == freed + outq && outq != []
    ensures accepted == freed + [outq[0]] + outq[1..]
  {
  }

  lemma LastIsAlone(accepted: seq<Container>, freed: seq<Container>, outq: seq<Container>, nextId: nat, canSend: bool)
    requires accepted == freed + outq && outq != [] && Ordered(accepted, nextId, canSend)
    ensures outq[0].last ==> outq[1..] == []
  {
    assert accepted[|freed|] == outq[0];
  }

  lemma StepKeepsInv(q: Queue, e: Event)
    requires Inv(q)
    ensures Inv(Step(q, e))
  {
    if !q.closed {
      match e
      case Send(data, last) => SendKeepsInv(q, data, last);
      case OnTime =>
      case OnWrite => WriteKeepsInv(q);
      case Disconnect =>
    }
  }

  lemma {:induction false} RunKeepsInv(q: Queue, events: seq<Event>)
    requires Inv(q)
    ensures Inv(Run(q, events))
    decreases |events|
  {
    if events != [] {
      StepKeepsInv(q, events[0]);
      RunKeepsInv(Step(q, events[0]), events[1..]);
    }
  }

  /** In every interleaving: what reached the socket is a prefix of what was accepted, no
      packet twice; nothing is freed before it is written; init_pack is null or the front;
      and a packet flagged to disconnect is the last one accepted. */
  lemma SendGuarantees(events: seq<Event>)
    ensures var q := Run(START, events);
      && q.written <= q.accepted
      && q.freed <= q.written
      && (forall i, j :: 0 <= i < j < |q.written| ==> q.written[i].id != q.written[j].id)
      && (q.initPack.Some? ==> q.outq != [] && q.initPack.value == q.outq[0])
      && (forall i :: 0 <= i < |q.accepted| && q.accepted[i].last ==> i == |q.accepted| - 1)
  {
    RunKeepsInv(START, events);
    InvMeans(Run(START, events));
  }

  lemma InvMeans(q: Queue)
    requires Inv(q)
    ensures q.written <= q.accepted && q.freed <= q.written
    ensures forall i, j :: 0 <= i < j < |q.written| ==> q.written[i].id != q.written[j].id
  {
    assert q.written <= q.accepted;
    forall i, j | 0 <= i < j < |q.written| ensures q.written[i].id != q.written[j].id {
      assert q.written[i] == q.accepted[i] && q.written[j] == q.accepted[j];
    }
  }

  function Repeat(n: nat, e: Event): seq<Event> {
    if n == 0 then [] else [e] + Repeat(n - 1, e)
  }

  /** No packet is stuck: the timer and one completed write per queued packet send them all. */
  lemma {:induction false} EveryPacketIsSent(q: Queue)
    requires Inv(q) && !q.closed && !q.disconnectReq
    ensures var r := Run(q, [OnTime] + Repeat(|q.outq|, OnWrite));
      r.written == q.accepted && r.freed == q.accepted && r.outq == []
  {
    var w := Repeat(|q.outq|, OnWrite);
    assert ([OnTime] + w)[0] == OnTime && ([OnTime] + w)[1..] == w;
    StepKeepsInv(q, OnTime);
    WritesDrain(Step(q, OnTime));
  }

  lemma {:induction false} WritesDrain(q: Queue)
    requires Inv(q) && !q.closed && q.initPack == None
    ensures var r := Run(q, Repeat(|q.outq|, OnWrite));
      r.written == q.accepted && r.freed == q.accepted && r.outq == []
    decreases |q.outq|
  {
    if q.outq != [] {
      var w := Repeat(|q.outq|, OnWrite);
      assert w[1..] == Repeat(|q.outq| - 1, OnWrite);
      WriteOne(q);
      WritesDrain(Step(q, OnWrite));
    } else {
      assert q.freed + [] == q.freed;
    }
  }

  /** A completed write frees the front packet and starts the next. */
  lemma WriteOne(q: Queue)
    requires Inv(q) && !q.closed && q.initPack == None && q.outq != []
    ensures var r := Step(q, OnWrite);
      Inv(r) && !r.closed && r.initPack == None && r.outq == q.outq[1..] && r.accepted == q.accepted
  {
    WriteKeepsInv(q);
  }

  // ------------------------------------------------- the same, told from the calls alone

  predicate Ends(e: Event) { e.Disconnect? || (e.Send? && e.last) }

  /** Nothing sent after these calls is accepted. */
  predicate Stopped(events: seq<Event>) {
    exists i :: 0 <= i < |events| && Ends(events[i])
  }

  /** What was given to send up to and including the first packet flagged to disconnect, and
      before the first disconnection. */
  function Given(events: seq<Event>): seq<(seq<byte>, bool)> {
    if events == [] then []
    else
      var init, e := events[..|events| - 1], events[|events| - 1];
      Given(init) + if e.Send? && !Stopped(init) then [(e.data, e.last)] else []
  }

  function Pairs(cs: seq<Container>): seq<(seq<byte>, bool)> {
    seq(|cs|, i requires 0 <= i < |cs| => (cs[i].data, cs[i].last))
  }

  /** Disconnection was asked for by a call, or by a packet that has been written and freed. */
  ghost predicate Asked(q: Queue, events: seq<Event>) {
    || (exists i :: 0 <= i < |events| && events[i].Disconnect?)
    || (exists i :: 0 <= i < |q.freed| && q.freed[i].last)
  }

  lemma {:induction false} RunSnoc(q: Queue, events: seq<Event>, e: Event)
    ensures Run(q, events + [e]) == Step(Run(q, events), e)
    decreases |events|
  {
    if events == [] {
      assert events + [e] == [e] && [e][1..] == [];
    } else {
      RunSnoc(Step(q, events[0]), events[1..], e);
      assert (events + [e])[1..] == events[1..] + [e];
    }
  }

  ghost predicate Tells(q: Queue, events: seq<Event>) {
    && Pairs(q.accepted) == Given(events)
    && (q.canSend && !q.disconnectReq <==> !Stopped(events))
    && (q.disconnectReq <==> Asked(q, events))
    && (q.closed ==> q.disconnectReq)
  }

  lemma StoppedSnoc(events: seq<Event>, e: Event)
    ensures Stopped(events + [e]) <==> Stopped(events) || Ends(e)
    ensures (exists i :: 0 <= i < |events + [e]| && (events + [e])[i].Disconnect?) <==>
      (exists i :: 0 <= i < |events| && events[i].Disconnect?) || e.Disconnect?
  {
    var more := events + [e];
    assert more[|events|] == e;
    forall i | 0 <= i < |events| ensures more[i] == events[i] {
    }
    if Stopped(events) {
      var i :| 0 <= i < |events| && Ends(events[i]);
      assert Ends(more[i]);
    }
    if i :| 0 <= i < |events| && events[i].Disconnect? {
      assert more[i].Disconnect?;
    }
  }

  lemma PairsSnoc(cs: seq<Container>, c: Container)
    ensures Pairs(cs + [c]) == Pairs(cs) + [(c.data, c.last)]
  {
  }

  lemma FreedSnoc(freed: seq<Container>, c: Container)
    ensures (exists i :: 0 <= i < |freed + [c]| && (freed + [c])[i].last) <==>
      (exists i :: 0 <= i < |freed| && freed[i].last) || c.last
  {
    var more := freed + [c];
    assert more[|freed|] == c;
    if i :| 0 <= i < |freed| && freed[i].last {
      assert more[i].last;
    }
  }

  lemma GivenSnoc(events: seq<Event>, e: Event)
    ensures Given(events + [e]) == Given(events) + if e.Send? && !Stopped(events) then [(e.data, e.last)] else []
  {
    assert (events + [e])[..|events|] == events;
  }

  lemma TellsNext(q: Queue, events: seq<Event>, e: Event)
    requires Inv(q) && Tells(q, events)
    ensures Tells(Step(q, e), events + [e])
  {
    StoppedSnoc(events, e);
    GivenSnoc(events, e);
    if !q.closed {
      match e
      case Send(data, last) => PairsSnoc(q.accepted, Container(q.nextId, data, last));
      case OnTime =>
      case OnWrite =>
        if q.outq != [] {
          FreedSnoc(q.freed, q.outq[0]);
          assert q.accepted[|q.freed|] == q.outq[0];
        }
      case Disconnect =>
    }
  }

  lemma {:induction false} RunTells(events: seq<Event>)
    ensures Inv(Run(START, events)) && Tells(Run(START, events), events)
    decreases |events|
  {
    if events != [] {
      var init, e := events[..|events| - 1], events[|events| - 1];
      assert events == init + [e];
      RunTells(init);
      RunSnoc(START, init, e);
      StepKeepsInv(Run(START, init), e);
      TellsNext(Run(START, init), init, e);
    }
  }

  /** In every interleaving the packets accepted are exactly those that were given to send, with
      their contents, up to the first flagged to disconnect and before any disconnection. */
  lemma AcceptedAreGiven(events: seq<Event>)
    ensures Pairs(Run(START, events).accepted) == Given(events)
  {
    RunTells(events);
  }

  /** The connection is torn down by a timer call made after disconnection was asked for, by a
      call or by a packet that had been written, and by nothing else. */
  lemma {:induction false} ClosedByTimer(events: seq<Event>)
    ensures Run(START, events).closed <==>
      exists i :: 0 <= i < |events| && events[i] == OnTime && Asked(Run(START, events[..i]), events[..i])
    decreases |events|
  {
    if events != [] {
      var n := |events| - 1;
      var init, e := events[..n], events[n];
      assert events == init + [e];
      RunTells(init);
      RunSnoc(START, init, e);
      ClosedByTimer(init);
      forall i | 0 <= i < n ensures init[..i] == events[..i] && init[i] == events[i] {
      }
      if i :| 0 <= i < n && init[i] == OnTime && Asked(Run(START, init[..i]), init[..i]) {
        assert events[i] == OnTime && Asked(Run(START, events[..i]), events[..i]);
      }
    }
  }

  /** Once a packet flagged to disconnect was accepted, writing what is queued and one more call of
      the timer tear the connection down. */
  lemma LastCloses(events: seq<Event>)
    requires var q := Run(START, events); !q.canSend && !q.closed && !q.disconnectReq
    ensures var q := Run(START, events);
      Run(START, events + ([OnTime] + Repeat(|q.outq|, OnWrite)) + [OnTime]).closed
  {
    var q := Run(START, events);
    var more := [OnTime] + Repeat(|q.outq|, OnWrite);
    RunTells(events);
    EveryPacketIsSent(q);
    RunAppend(START, events, more);
    RunTells(events + more);
    var r := Run(START, events + more);
    assert r.freed[|r.freed| - 1].last;
    RunSnoc(START, events + more, OnTime);
  }

  lemma {:induction false} RunAppend(q: Queue, a: seq<Event>, b: seq<Event>)
    ensures Run(q, a + b) == Run(Run(q, a), b)
    decreases |a|
  {
    if a == [] {
      assert a + b == b;
    } else {
      RunAppend(Step(q, a[0]), a[1..], b);
      assert (a + b)[1..] == a[1..] + b;
    }
  }

  class Output {
    var outq: seq<Container>
    var initPack: Option<Container>
    var canSend: bool
    var disconnectReq: bool
    var closed: bool
    var nextId: nat
    ghost var accepted: seq<Container>
    ghost var written: seq<Container>
    ghost var freed: seq<Container>

    ghost function View(): Queue
      reads this
    {
      Queue(outq, initPack, canSend, disconnectReq, closed, nextId, accepted, written, freed)
    }

    constructor ()
      ensures View() == START
    {
      outq, initPack, canSend, disconnectReq, closed, nextId := [], None, true, false, false, 1;
      accepted, written, freed := [], [], [];
    }

    method SendPacket(data: seq<byte>, last: bool)
      requires !closed
      modifies this
      ensures View() == Step(old(View()), Send(data, last))
    {
      if !canSend || disconnectReq {
        return;
      }
      var cont := Container(nextId, data, last);
      nextId := nextId + 1;
      if last {
        canSend := false;
      }
      outq := outq + [cont];
      accepted := accepted + [cont];
      if |outq| == 1 {
        initPack := Some(cont);
      }
    }

    method OnTimer()
      requires !closed
      modifies this
      ensures View() == Step(old(View()), OnTime)
    {
      if disconnectReq {
        closed := true;
        return;
      }
      if initPack.Some? {
        written := written + [initPack.value];
        initPack := None;
      }
    }

    method OnWritten()
      requires !closed
      modifies this
      ensures View() == Step(old(View()), OnWrite)
    {
      if outq == [] {
        return;
      }
      var cont := outq[0];
      if initPack == Some(cont) {
        return;
      }
      outq := outq[1..];
      freed := freed + [cont];
      if cont.last {
        disconnectReq := true;
        return;
      }
      if outq != [] {
        written := written + [outq[0]];
      }
    }
  }
}
