/**
 * What the client does on a whole trace of turns, read off the trace: the packets it has sent, what it has written, its
 * counter, and when it stops and why.
 */
module ClientTraces {
  import opened Packets
  import opened Retries
  import opened C = ClientSpec

  function Events(turns: seq<Turn>): (es: seq<Event>)
    ensures |es| == |turns| && forall i :: 0 <= i < |es| ==> es[i] == turns[i].event
  {
    seq(|turns|, i requires 0 <= i < |turns| => turns[i].event)
  }

  lemma EventsSnoc(turns: seq<Turn>, turn: Turn)
    ensures Events(turns + [turn]) == Events(turns) + [turn.event]
    ensures (turns + [turn])[..|turns|] == turns && Events(turns + [turn])[..|turns|] == Events(turns)
  {
  }

  /** The client after a trace of turns, and what it has sent on it; it takes no turn once it has stopped. */
  function Trace(h: Host, req: Request, c: Client, turns: seq<Turn>): (Client, seq<Packet>)
    decreases |turns|
  {
    if turns == [] || !Live(c) then (c, []) else
    var (c1, sent) := Step(h, req, c, turns[0]);
    var (c2, later) := Trace(h, req, c1, turns[1..]);
    (c2, sent + later)
  }

  lemma {:induction false} TraceSnoc(h: Host, req: Request, c: Client, turns: seq<Turn>, turn: Turn)
    ensures var (c1, sent) := Trace(h, req, c, turns);
      Trace(h, req, c, turns + [turn])
        == if Live(c1) then (Step(h, req, c1, turn).0, sent + Step(h, req, c1, turn).1) else (c1, sent)
    decreases |turns|
  {
    hide Step;
    var all := turns + [turn];
    if turns == [] {
      assert all[1..] == [] && all[0] == turn;
      if Live(c) {
        var more := Step(h, req, c, turn).1;
        assert [] + more == more == more + [];
      }
    } else if Live(c) {
      assert all[0] == turns[0] && all[1..] == turns[1..] + [turn];
      var (c1, first) := Step(h, req, c, turns[0]);
      TraceSnoc(h, req, c1, turns[1..], turn);
      var (c2, mid) := Trace(h, req, c1, turns[1..]);
      var more := Step(h, req, c2, turn).1;
      assert first + (mid + more) == (first + mid) + more;
    }
  }

  /** `Run` is the trace and then silence until it stops. */
  lemma {:induction false} RunIsTrace(h: Host, req: Request, c: Client, turns: seq<Turn>)
    ensures var (c1, sent) := Trace(h, req, c, turns);
      Run(h, req, c, turns) == (Run(h, req, c1, []).0, sent + Run(h, req, c1, []).1)
    decreases |turns|
  {
    if turns == [] || !Live(c) {
      assert [] + Run(h, req, c, []).1 == Run(h, req, c, []).1;
    } else {
      var (c1, first) := Step(h, req, c, turns[0]);
      hide Step;
      RunIsTrace(h, req, c1, turns[1..]);
      var (c2, mid) := Trace(h, req, c1, turns[1..]);
      assert first + (mid + Run(h, req, c2, []).1) == (first + mid) + Run(h, req, c2, []).1;
    }
  }

  // ----- receiving: what the trace says

  /** The number awaited after the events: one more for each intact packet that carried the number awaited then. */
  function Next(cksum: Checksum, start: uint32, es: seq<Event>): uint32 {
    if es == [] then start else
    var n := Next(cksum, start, es[..|es| - 1]);
    if Carries(cksum, es[|es| - 1], n) then Inc(n) else n
  }

  /** An awaited packet of data, smaller than a buffer, that is written. */
  predicate Ends(h: Host, req: Request, n: uint32, turn: Turn) {
    Carries(h.inCksum, turn.event, n) && turn.event.p.typ == PKT_TYPE_DAT && turn.event.p.size < req.bufferSize
    && !turn.write.Fails?
  }

  /** The reception fails, or the `write` of an awaited packet, or the `sendto` of an answer that is due. */
  predicate CallFails(h: Host, req: Request, n: uint32, turn: Turn) {
    || turn.event.RecvError?
    || (Carries(h.inCksum, turn.event, n) && turn.write.Fails?)
    || (!Ends(h, req, n, turn) && !turn.sendOk)
  }

  /** The answer to an event: RR for an intact packet with a number up to the awaited one, else REJ for that. */
  function Answer(cksum: Checksum, n: uint32, e: Event): Packet {
    if e.Arrive? && Intact(cksum, e.p) && e.p.sequence <= n then RrPkt(cksum, e.p.sequence) else RejPkt(cksum, n)
  }

  /** Nothing on the trace stops a client that receives: no failing call, no end, and never ten retries used up. */
  predicate Running(h: Host, req: Request, start: uint32, turns: seq<Turn>)
    decreases |turns|
  {
    turns == [] ||
    (var turn, n := turns[|turns| - 1], Next(h.inCksum, start, Events(Before(turns)));
     && Running(h, req, start, Before(turns))
     && !CallFails(h, req, n, turn) && !Ends(h, req, n, turn)
     && Deficit(h.inCksum, Events(turns)) < 10)
  }

  /** A call has failed on the trace while the client was running. */
  predicate Failed(h: Host, req: Request, start: uint32, turns: seq<Turn>)
    decreases |turns|
  {
    turns != [] &&
    (|| Failed(h, req, start, Before(turns))
     || (Running(h, req, start, Before(turns))
         && CallFails(h, req, Next(h.inCksum, start, Events(Before(turns))), turns[|turns| - 1])))
  }

  /** A running client has taken the end of the file on the trace. */
  predicate Completed(h: Host, req: Request, start: uint32, turns: seq<Turn>)
    decreases |turns|
  {
    turns != [] &&
    (var turn, n := turns[|turns| - 1], Next(h.inCksum, start, Events(Before(turns)));
     || Completed(h, req, start, Before(turns))
     || (Running(h, req, start, Before(turns)) && Ends(h, req, n, turn) && !CallFails(h, req, n, turn)))
  }

  /** What a running client writes: of every awaited packet the bytes that `write` takes, in order. */
  function Output(h: Host, req: Request, start: uint32, turns: seq<Turn>): seq<byte>
    decreases |turns|
  {
    if turns == [] then [] else
    var turn, n := turns[|turns| - 1], Next(h.inCksum, start, Events(Before(turns)));
    Output(h, req, start, Before(turns))
    + if Running(h, req, start, Before(turns)) && Carries(h.inCksum, turn.event, n)
      then Taken(Written(h, turn.event.p), turn.write) else []
  }

  /** What a running client sends: an answer to every turn that neither stops it nor ends the transfer. */
  function Answers(h: Host, req: Request, start: uint32, turns: seq<Turn>): seq<Packet>
    decreases |turns|
  {
    if turns == [] then [] else
    var turn, n := turns[|turns| - 1], Next(h.inCksum, start, Events(Before(turns)));
    Answers(h, req, start, Before(turns))
    + if Running(h, req, start, Before(turns)) && !CallFails(h, req, n, turn) && !Ends(h, req, n, turn)
      then [Answer(h.inCksum, n, turn.event)] else []
  }

  /** A `write` takes bytes from the front: all of them, as many as it says, or none. */
  lemma TakenIsFront(bytes: seq<byte>, write: Write)
    ensures Taken(bytes, write) <= bytes
    ensures |Taken(bytes, write)|
         == match write
            case All => |bytes|
            case Short(n) => if n < |bytes| then n else |bytes|
            case Fails => 0
  {
  }

  /** One turn of a receiving client in these terms. */
  lemma ReceivingStep(h: Host, req: Request, c: Client, turn: Turn)
    requires c.mode == RECV_PACKETS
    ensures var (c1, sent) := Step(h, req, c, turn);
      var carried := Carries(h.inCksum, turn.event, c.sequence);
      && c1.retries == Receive(h.inCksum, c.retries, turn.event).0
      && c1.mode == (if CallFails(h, req, c.sequence, turn) then ERROR
                     else if Ends(h, req, c.sequence, turn) then DONE
                     else RECV_PACKETS)
      && c1.sequence == (if carried then Inc(c.sequence) else c.sequence)
      && c1.output == c.output + (if carried then Taken(Written(h, turn.event.p), turn.write) else [])
      && sent == (if c1.mode == RECV_PACKETS then [Answer(h.inCksum, c.sequence, turn.event)] else [])
      && c1.index == c.index
  {
    hide RrPkt, RejPkt, Written;
    assert c.output + [] == c.output;
  }

  /**
   * A receiving client on any trace, in closed form: it has stopped with ERROR exactly if a call failed, with DONE
   * exactly if it took the end of the file, and it goes on exactly if neither happened and the deficit never reached
   * ten. Its counter is ten less the deficit, and what it has written and sent is read off the trace.
   */
  lemma {:induction false} ReceivesExactly(h: Host, req: Request, c: Client, turns: seq<Turn>)
    requires c.mode == RECV_PACKETS && c.retries == 10
    ensures var (c1, sent) := Trace(h, req, c, turns);
      && (c1.mode == ERROR <==> Failed(h, req, c.sequence, turns))
      && (c1.mode == DONE <==> Completed(h, req, c.sequence, turns))
      && c1.mode != INIT
      && (c1.mode == RECV_PACKETS && c1.retries > 0 <==> Running(h, req, c.sequence, turns))
      && c1.output == c.output + Output(h, req, c.sequence, turns)
      && sent == Answers(h, req, c.sequence, turns)
      && (Running(h, req, c.sequence, turns) ==>
            && c1.retries == 10 - Deficit(h.inCksum, Events(turns))
            && c1.sequence == Next(h.inCksum, c.sequence, Events(turns)))
    decreases |turns|
  {
    hide Step, Deficit, Next, CallFails, Ends, Carries, Answer, Receive, Written, Taken, Inc, Events;
    if turns == [] {
      NothingYet(h.inCksum, c.sequence);
      assert c.output + [] == c.output;
    } else {
      var before, turn := Before(turns), turns[|turns| - 1];
      assert turns == before + [turn];
      EventsSnoc(before, turn);
      TraceSnoc(h, req, c, before, turn);
      ReceivesExactly(h, req, c, before);
      var (c0, sent0) := Trace(h, req, c, before);
      if Live(c0) {
        ReceivingStep(h, req, c0, turn);
        DeficitStep(h.inCksum, Events(before), turn.event, c0.retries);
        NextSnoc(h.inCksum, c.sequence, Events(before), turn.event);
      }
      hide Trace;
      assert sent0 + [] == sent0 && c0.output + [] == c0.output;
      AppendAll(c.output, Output(h, req, c.sequence, before), turn, h);
    }
  }

  lemma AppendAll(a: seq<byte>, b: seq<byte>, turn: Turn, h: Host)
    ensures a + (b + []) == a + b
    ensures turn.event.Arrive? ==>
      var w := Taken(Written(h, turn.event.p), turn.write);
      (a + b) + w == a + (b + w)
  {
  }

  lemma NothingYet(cksum: Checksum, start: uint32)
    ensures Deficit(cksum, []) == 0 && Next(cksum, start, []) == start && Events([]) == []
  {
  }

  lemma NextSnoc(cksum: Checksum, start: uint32, es: seq<Event>, e: Event)
    ensures Next(cksum, start, es + [e])
         == if Carries(cksum, e, Next(cksum, start, es)) then Inc(Next(cksum, start, es)) else Next(cksum, start, es)
  {
    assert (es + [e])[..|es|] == es;
  }

  /** If no reception, no `write` and no `sendto` fails, the client never stops with ERROR, whatever it hears. */
  lemma NoErrorUnlessCallFails(h: Host, req: Request, c: Client, turns: seq<Turn>)
    requires c.mode == RECV_PACKETS && c.retries == 10
    requires forall i :: 0 <= i < |turns| ==>
      !turns[i].event.RecvError? && !turns[i].write.Fails? && turns[i].sendOk
    ensures Trace(h, req, c, turns).0.mode != ERROR
  {
    ReceivesExactly(h, req, c, turns);
    NoneFailed(h, req, c.sequence, turns);
  }

  lemma {:induction false} NoneFailed(h: Host, req: Request, start: uint32, turns: seq<Turn>)
    requires forall i :: 0 <= i < |turns| ==>
      !turns[i].event.RecvError? && !turns[i].write.Fails? && turns[i].sendOk
    ensures !Failed(h, req, start, turns)
    decreases |turns|
  {
    hide Running, Carries;
    if turns != [] {
      NoneFailed(h, req, start, Before(turns));
    }
  }

  /** While it receives, it has given up exactly when the deficit reached ten somewhere on the trace. */
  lemma {:induction false} ClientGivesUpExactly(h: Host, req: Request, c: Client, turns: seq<Turn>)
    requires c.mode == RECV_PACKETS && c.retries == 10
    ensures var c1 := Trace(h, req, c, turns).0;
      && c1.mode != INIT
      && (c1.mode == RECV_PACKETS ==>
            && (c1.retries <= 0 <==> Exhausted(h.inCksum, Events(turns)))
            && (c1.retries > 0 ==> c1.retries == 10 - Deficit(h.inCksum, Events(turns))))
    decreases |turns|
  {
    hide Step, Deficit, Exhausted, CallFails, Ends, Carries, Answer, Receive, Written, Taken;
    if turns == [] {
      NothingYet(h.inCksum, c.sequence);
      NotExhausted(h.inCksum);
    } else {
      var before, turn := Before(turns), turns[|turns| - 1];
      assert turns == before + [turn];
      EventsSnoc(before, turn);
      TraceSnoc(h, req, c, before, turn);
      ClientGivesUpExactly(h, req, c, before);
      ExhaustedStep(h.inCksum, Events(before), turn.event);
      var c0 := Trace(h, req, c, before).0;
      if Live(c0) {
        ReceivingStep(h, req, c0, turn);
        DeficitStep(h.inCksum, Events(before), turn.event, c0.retries);
      }
      hide Trace;
    }
  }

  // ----- init: what the trace says

  /** An intact RR for packet `i`. */
  predicate Acknowledges(cksum: Checksum, e: Event, i: nat) {
    Carries(cksum, e, i % U32_SIZE) && i < U32_SIZE && e.p.typ == PKT_TYPE_RR
  }

  /**
   * The packet that follows packet `i`: itself after silence, corruption or an RR for another packet, packet k after
   * REJ(k) with k up to i, and otherwise the next.
   */
  function Follows(cksum: Checksum, i: nat, e: Event): nat {
    if !e.Arrive? || !Intact(cksum, e.p) then i
    else if e.p.typ == PKT_TYPE_RR && !Acknowledges(cksum, e, i) then i
    else if e.p.typ == PKT_TYPE_REJ && e.p.sequence <= i then e.p.sequence
    else i + 1
  }

  /** The packet that is due after the events. */
  function Due(cksum: Checksum, es: seq<Event>): nat {
    if es == [] then 0 else Follows(cksum, Due(cksum, es[..|es| - 1]), es[|es| - 1])
  }

  /**
   * The turn stops a client that has sent packet `i`: the reception fails, ten retries are used up, `GetSocket` fails,
   * or the `sendto` of the packet that is due.
   */
  predicate InitFails(h: Host, i: nat, turn: Turn, deficit: nat) {
    || turn.event.RecvError? || deficit >= 10
    || (i == 0 && Acknowledges(h.inCksum, turn.event, 0) && !turn.socketOk)
    || (Follows(h.inCksum, i, turn.event) < 5 && !turn.sendOk)
  }

  /** The client is still in `init` after the trace; `startOk` tells whether its first `sendto` succeeds. */
  predicate Asking(h: Host, startOk: bool, turns: seq<Turn>)
    decreases |turns|
  {
    if turns == [] then startOk else
    && Asking(h, startOk, Before(turns))
    && !InitFails(h, Due(h.inCksum, Events(Before(turns))), turns[|turns| - 1], Deficit(h.inCksum, Events(turns)))
    && Due(h.inCksum, Events(turns)) < 5
  }

  /** What a client in `init` sends: packet 0, and after every event the packet that is due. */
  function Requests(h: Host, req: Request, startOk: bool, turns: seq<Turn>): seq<Packet>
    decreases |turns|
  {
    (if turns == [] then [] else Requests(h, req, startOk, Before(turns)))
    + var i := Due(h.inCksum, Events(turns));
      if Asking(h, startOk, turns) && i < 5 then [InitPkt(h.inCksum, req, i)] else []
  }

  lemma DueSnoc(cksum: Checksum, es: seq<Event>, e: Event)
    ensures Due(cksum, es + [e]) == Follows(cksum, Due(cksum, es), e)
  {
    assert (es + [e])[..|es|] == es;
  }

  /** One turn of a client in `init` in these terms. */
  lemma InitTurn(h: Host, req: Request, c: Client, turn: Turn)
    requires c.mode == INIT && c.index < 5 && c.retries > 0
    ensures var (c1, sent) := Step(h, req, c, turn);
      var retries := Receive(h.inCksum, c.retries, turn.event).0;
      var i := Follows(h.inCksum, c.index, turn.event);
      if InitFails(h, c.index, turn, if retries <= 0 then 10 else 0) then c1.mode == ERROR && sent == []
      else if i < 5 then c1 == c.(index := i, retries := retries) && sent == [InitPkt(h.inCksum, req, i)]
      else c1 == c.(mode := RECV_PACKETS, index := 0, sequence := 0, retries := 10) && sent == []
  {
    hide InitPkt, Intact;
  }

  /**
   * A new client on any trace, as long as it is in `init`: the packets it has sent are the ones that were due, in
   * order, and its counter is ten less the deficit.
   */
  lemma {:induction false} AsksExactly(h: Host, req: Request, startOk: bool, turns: seq<Turn>)
    requires Asking(h, startOk, turns)
    ensures var (c0, first) := InitSend(h, req, Constructed(), 0, startOk);
      var (c1, later) := Trace(h, req, c0, turns);
      var es := Events(turns);
      && Due(h.inCksum, es) < 5 && Deficit(h.inCksum, es) < 10
      && c1 == Client(INIT, 10 - Deficit(h.inCksum, es), 0, Due(h.inCksum, es), [])
      && first + later == Requests(h, req, startOk, turns)
    decreases |turns|
  {
    hide Step, Deficit, InitFails, Follows, Receive, InitPkt;
    var (c0, first) := InitSend(h, req, Constructed(), 0, startOk);
    if turns == [] {
      NothingYet(h.inCksum, 0);
      assert first + [] == first == [] + first;
    } else {
      var before, turn := Before(turns), turns[|turns| - 1];
      assert turns == before + [turn];
      EventsSnoc(before, turn);
      TraceSnoc(h, req, c0, before, turn);
      AsksExactly(h, req, startOk, before);
      var (c1, later) := Trace(h, req, c0, before);
      InitTurn(h, req, c1, turn);
      DeficitStep(h.inCksum, Events(before), turn.event, c1.retries);
      DueSnoc(h.inCksum, Events(before), turn.event);
      DeficitOnly(h, c1.index, turn, Deficit(h.inCksum, Events(turns)));
      var (c2, more) := Step(h, req, c1, turn);
      assert c2 == c1.(index := Due(h.inCksum, Events(turns)), retries := 10 - Deficit(h.inCksum, Events(turns)));
      assert Trace(h, req, c0, turns) == (c2, later + more);
      hide Trace;
      assert Requests(h, req, startOk, turns) == Requests(h, req, startOk, before) + more;
      assert first + (later + more) == (first + later) + more;
    }
  }

  lemma DeficitOnly(h: Host, i: nat, turn: Turn, deficit: nat)
    ensures InitFails(h, i, turn, if 10 - deficit <= 0 then 10 else 0) <==> InitFails(h, i, turn, deficit)
    ensures deficit >= 10 ==> InitFails(h, i, turn, deficit)
  {
  }

  /** How it leaves `init`: with ERROR exactly if a call fails or ten retries are used up, else to receive packet 0. */
  lemma LeavesInit(h: Host, req: Request, startOk: bool, turns: seq<Turn>, turn: Turn)
    requires Asking(h, startOk, turns) && !Asking(h, startOk, turns + [turn])
    ensures var c0 := InitSend(h, req, Constructed(), 0, startOk).0;
      var (c1, later) := Trace(h, req, c0, turns + [turn]);
      && later == Trace(h, req, c0, turns).1
      && if InitFails(h, Due(h.inCksum, Events(turns)), turn, Deficit(h.inCksum, Events(turns + [turn])))
         then c1.mode == ERROR
         else c1 == Client(RECV_PACKETS, 10, 0, 0, [])
  {
    hide Step, Deficit, InitFails, Follows, Receive, InitPkt;
    var c0 := InitSend(h, req, Constructed(), 0, startOk).0;
    EventsSnoc(turns, turn);
    TraceSnoc(h, req, c0, turns, turn);
    AsksExactly(h, req, startOk, turns);
    var (c1, later) := Trace(h, req, c0, turns);
    InitTurn(h, req, c1, turn);
    DeficitStep(h.inCksum, Events(turns), turn.event, c1.retries);
    DueSnoc(h.inCksum, Events(turns), turn.event);
    DeficitOnly(h, c1.index, turn, Deficit(h.inCksum, Events(turns + [turn])));
    assert later + [] == later;
    assert Before(turns + [turn]) == turns;
    hide Trace;
  }

  /** A client whose first `sendto` fails sends nothing. */
  lemma NeverAsks(h: Host, req: Request, turns: seq<Turn>)
    ensures Whole(h, req, Constructed(), false, turns, []).0.mode == ERROR
    ensures Whole(h, req, Constructed(), false, turns, []).1 == []
  {
  }

  // ----- the exchange that the handshake is for

  /** The packets from `i` on. */
  function From(cksum: Checksum, req: Request, i: nat): seq<Packet>
    decreases 5 - i
  {
    if i < 5 then [InitPkt(cksum, req, i)] + From(cksum, req, i + 1) else []
  }

  /** The turns acknowledge packets `i` to 4 one after the other, and no call fails. */
  predicate Acknowledged(h: Host, i: nat, turns: seq<Turn>) {
    && |turns| >= 5 - i
    && forall m :: 0 <= m < 5 - i ==>
         Acknowledges(h.inCksum, turns[m].event, i + m) && turns[m].sendOk && turns[m].socketOk
  }

  lemma {:induction false} AcknowledgedRun(h: Host, req: Request, c: Client, i: nat, turns: seq<Turn>)
    requires c.mode == INIT && c.index == i < 5 && c.retries > 0 && Acknowledged(h, i, turns)
    ensures InitRun(h, req, c, turns)
         == (c.(mode := RECV_PACKETS, index := 0, sequence := 0, retries := 10),
             From(h.inCksum, req, i + 1), turns[5 - i..])
    decreases 5 - i
  {
    hide InitPkt;
    var (c1, sent) := InitStep(h, req, c, turns[0]);
    assert Acknowledges(h.inCksum, turns[0].event, i);
    InitTurn(h, req, c, turns[0]);
    if i < 4 {
      assert turns[1..][4 - i..] == turns[5 - i..];
      assert forall m :: 0 <= m < 4 - i ==> turns[1..][m] == turns[m + 1];
      AcknowledgedRun(h, req, c1, i + 1, turns[1..]);
    } else {
      assert sent + [] == [];
    }
  }

  /**
   * A new client whose packets are acknowledged one after the other sends exactly packets 0 to 4, in order, and goes on
   * to receive packet 0 of the file with ten retries.
   */
  lemma AcknowledgedInit(h: Host, req: Request, turns: seq<Turn>)
    requires Acknowledged(h, 0, turns)
    ensures InitFrom(h, req, Constructed(), 0, true, turns)
         == (Client(RECV_PACKETS, 10, 0, 0, []),
             [InitPkt(h.inCksum, req, 0), InitPkt(h.inCksum, req, 1), InitPkt(h.inCksum, req, 2),
              InitPkt(h.inCksum, req, 3), InitPkt(h.inCksum, req, 4)],
             turns[5..])
  {
    AcknowledgedRun(h, req, Constructed(), 0, turns);
    hide InitPkt, InitRun;
    FromOne(h.inCksum, req);
    var p := InitPkt(h.inCksum, req, 0);
    assert InitSend(h, req, Constructed(), 0, true) == (Constructed(), [p]);
    assert [p] + From(h.inCksum, req, 1)
        == [p, InitPkt(h.inCksum, req, 1), InitPkt(h.inCksum, req, 2), InitPkt(h.inCksum, req, 3),
            InitPkt(h.inCksum, req, 4)];
  }

  lemma FromOne(cksum: Checksum, req: Request)
    ensures From(cksum, req, 1)
         == [InitPkt(cksum, req, 1), InitPkt(cksum, req, 2), InitPkt(cksum, req, 3), InitPkt(cksum, req, 4)]
  {
    hide InitPkt;
    assert From(cksum, req, 5) == [];
    assert From(cksum, req, 4) == [InitPkt(cksum, req, 4)];
    assert From(cksum, req, 3) == [InitPkt(cksum, req, 3), InitPkt(cksum, req, 4)];
    assert From(cksum, req, 2) == [InitPkt(cksum, req, 2), InitPkt(cksum, req, 3), InitPkt(cksum, req, 4)];
  }
}
