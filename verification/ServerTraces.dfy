/**
 * What the child does in `init` on a whole trace of turns, read off the trace: the answers it has sent, the parameters
 * it has taken, its counter, and when it leaves and why.
 */
module ServerTraces {
  import opened Packets
  import opened Retries
  import opened S = ServerSpec

  datatype Option<T> = None | Some(value: T)

  function Events(turns: seq<Turn>): (es: seq<Event>)
    ensures |es| == |turns| && forall i :: 0 <= i < |es| ==> es[i] == turns[i].event
  {
    seq(|turns|, i requires 0 <= i < |turns| => turns[i].event)
  }

  lemma EventsSnoc(turns: seq<Turn>, turn: Turn)
    ensures Events(turns + [turn]) == Events(turns) + [turn.event]
    ensures (turns + [turn])[..|turns|] == turns && Events(turns + [turn])[..|turns|] == Events(turns)
  {
  }

  lemma {:induction false} TraceSnoc(h: Host, s: Server, turns: seq<Turn>, turn: Turn)
    ensures var (s1, sent) := Trace(h, s, turns);
      Trace(h, s, turns + [turn])
        == if Live(s1) then (Step(h, s1, turn).0, sent + Step(h, s1, turn).1) else (s1, sent)
    decreases |turns|
  {
    hide Step;
    var all := turns + [turn];
    if turns == [] {
      assert all[1..] == [] && all[0] == turn;
      if Live(s) {
        var more := Step(h, s, turn).1;
        assert [] + more == more == more + [];
      }
    } else if Live(s) {
      assert all[0] == turns[0] && all[1..] == turns[1..] + [turn];
      var (s1, first) := Step(h, s, turns[0]);
      TraceSnoc(h, s1, turns[1..], turn);
      var (s2, mid) := Trace(h, s1, turns[1..]);
      var more := Step(h, s2, turn).1;
      assert first + (mid + more) == (first + mid) + more;
    }
  }

  /** `Child` is the trace and then silence until it stops. */
  lemma {:induction false} ChildIsTrace(h: Host, s: Server, turns: seq<Turn>)
    ensures var (s1, sent) := Trace(h, s, turns);
      S.Child(h, s, turns) == (S.Child(h, s1, []).0, sent + S.Child(h, s1, []).1)
    decreases |turns|
  {
    if turns == [] || !Live(s) {
      assert [] + S.Child(h, s, []).1 == S.Child(h, s, []).1;
    } else {
      var (s1, first) := Step(h, s, turns[0]);
      hide Step;
      ChildIsTrace(h, s1, turns[1..]);
      var (s2, mid) := Trace(h, s1, turns[1..]);
      assert first + (mid + S.Child(h, s2, []).1) == (first + mid) + S.Child(h, s2, []).1;
    }
  }

  // ----- what the trace says

  /** An intact packet numbered above `n`. */
  predicate Ahead(cksum: Checksum, e: Event, n: uint32) {
    e.Arrive? && Intact(cksum, e.p) && e.p.sequence > n
  }

  /** The number awaited after the events: 1, plus one for each intact packet that carried the number awaited then. */
  function Awaited(cksum: Checksum, es: seq<Event>): uint32 {
    if es == [] then 1 else
    var n := Awaited(cksum, es[..|es| - 1]);
    if Carries(cksum, es[|es| - 1], n) then Inc(n) else n
  }

  /** The last packet of this type that carried the awaited number. */
  function Parameter(cksum: Checksum, es: seq<Event>, typ: byte): Option<Packet> {
    if es == [] then None
    else if Carries(cksum, es[|es| - 1], Awaited(cksum, es[..|es| - 1])) && es[|es| - 1].p.typ == typ
    then Some(es[|es| - 1].p)
    else Parameter(cksum, es[..|es| - 1], typ)
  }

  /** Buffer size, window size and file name have all come. */
  predicate Complete(cksum: Checksum, es: seq<Event>) {
    && Parameter(cksum, es, PKT_TYPE_BUF).Some? && Parameter(cksum, es, PKT_TYPE_WIN).Some?
    && Parameter(cksum, es, PKT_TYPE_FLN).Some?
  }

  /** Timeouts since the last reception, and one more if that was corrupt or ahead of the number awaited then. */
  function InitDeficit(cksum: Checksum, es: seq<Event>): nat {
    var n := Quiet(es);
    var k := |es| - n - 1;
    if k >= 0 && (Corrupt(cksum, es[k]) || Ahead(cksum, es[k], Awaited(cksum, es[..k]))) then n + 1 else n
  }

  /** The answer to an event: RR of the awaited number for an intact packet with a number up to it, else its REJ. */
  function Answer(cksum: Checksum, n: uint32, e: Event): Packet {
    if e.Arrive? && Intact(cksum, e.p) && e.p.sequence <= n then RrPkt(cksum, n) else RejPkt(cksum, n)
  }

  function Answers(cksum: Checksum, es: seq<Event>): seq<Packet> {
    if es == [] then [] else
    var before := es[..|es| - 1];
    Answers(cksum, before) + [Answer(cksum, Awaited(cksum, before), es[|es| - 1])]
  }

  /** The reception of the turn fails, or the `sendto` of its answer. */
  predicate InitFails(turn: Turn) {
    turn.event.RecvError? || turn.fault == After(0)
  }

  /** Nothing on the trace ends `init`: no call fails, a parameter is missing, and ten retries are never used up. */
  predicate Waiting(h: Host, turns: seq<Turn>)
    decreases |turns|
  {
    turns == [] ||
    (&& Waiting(h, Before(turns)) && !InitFails(turns[|turns| - 1])
     && !Complete(h.inCksum, Events(turns)) && InitDeficit(h.inCksum, Events(turns)) < 10)
  }

  // ----- one more event

  lemma AwaitedSnoc(cksum: Checksum, es: seq<Event>, e: Event)
    ensures var n := Awaited(cksum, es);
      Awaited(cksum, es + [e]) == if Carries(cksum, e, n) then Inc(n) else n
  {
    assert (es + [e])[..|es|] == es;
  }

  lemma ParameterSnoc(cksum: Checksum, es: seq<Event>, e: Event, typ: byte)
    ensures Parameter(cksum, es + [e], typ)
         == if Carries(cksum, e, Awaited(cksum, es)) && e.p.typ == typ then Some(e.p) else Parameter(cksum, es, typ)
  {
    assert (es + [e])[..|es|] == es;
  }

  lemma AnswersSnoc(cksum: Checksum, es: seq<Event>, e: Event)
    ensures Answers(cksum, es + [e]) == Answers(cksum, es) + [Answer(cksum, Awaited(cksum, es), e)]
  {
    assert (es + [e])[..|es|] == es;
  }

  /** How one more event moves the deficit: as `init` moves the counter, the other way. */
  lemma InitDeficitSnoc(cksum: Checksum, es: seq<Event>, e: Event)
    ensures InitDeficit(cksum, es + [e])
         == if e.Timeout? then InitDeficit(cksum, es) + 1
            else if Corrupt(cksum, e) || Ahead(cksum, e, Awaited(cksum, es)) then 1 else 0
  {
    var all := es + [e];
    assert all[..|es|] == es;
    if e.Timeout? {
      var k := |es| - Quiet(es) - 1;
      assert Quiet(all) == Quiet(es) + 1;
      if k >= 0 {
        assert all[k] == es[k] && all[..k] == es[..k];
      }
    } else {
      assert Quiet(all) == 0;
    }
  }

  // ----- the child in `init`

  /** The fields of a child that waits in `init`. */
  predicate WaitsWith(h: Host, s: Server, es: seq<Event>) {
    var buf, win, fln := Parameter(h.inCksum, es, PKT_TYPE_BUF), Parameter(h.inCksum, es, PKT_TYPE_WIN),
                         Parameter(h.inCksum, es, PKT_TYPE_FLN);
    && s.mode == INIT && s.window == [] && s.outBuf == []
    && s.sequence == Awaited(h.inCksum, es)
    && s.flags == Flags(win.Some?, buf.Some?, fln.Some?)
    && (buf.Some? ==> s.bufferSize == buf.value.size)
    && (win.Some? ==> s.windowSize == win.value.size)
    && (fln.Some? ==> s.fromName == CString(fln.value.data))
  }

  /** The fields of a child that has opened the file it was asked for. */
  predicate OpensWith(h: Host, s: Server, es: seq<Event>)
    requires Complete(h.inCksum, es)
  {
    && s.mode == FILL_WINDOW && s.retries == 10 && s.sequence == 0 && s.window == [] && s.outBuf == []
    && s.bufferSize == Parameter(h.inCksum, es, PKT_TYPE_BUF).value.size
    && s.windowSize == Parameter(h.inCksum, es, PKT_TYPE_WIN).value.size
    && s.fromName == CString(Parameter(h.inCksum, es, PKT_TYPE_FLN).value.data)
    && s.fromName in h.files && s.file == h.files[s.fromName] && s.offset == 0
  }

  /** The counter and the loop's locals after one more turn whose calls succeed, before the loop test. */
  function Heard(h: Host, s: Server, turn: Turn): Server {
    var e := turn.event;
    var s1 := if Carries(h.inCksum, e, s.sequence) then Intake(s, e.p) else s;
    s1.(retries := if e.Timeout? then s.retries - 1
                   else if Corrupt(h.inCksum, e) || Ahead(h.inCksum, e, s.sequence) then 9 else 10)
  }

  lemma InitTurn(h: Host, s: Server, turn: Turn)
    requires s.mode == INIT
    ensures var (s1, sent) := Step(h, s, turn);
      if InitFails(turn) then s1.mode == ERROR && sent == []
      else s1 == LeaveInit(h, Heard(h, s, turn)) && sent == [Answer(h.inCksum, s.sequence, turn.event)]
  {
    hide RrPkt, RejPkt, Intact, CString, LeaveInit;
  }

  /** One more event keeps the fields as the trace says. */
  lemma HeardWith(h: Host, s: Server, es: seq<Event>, turn: Turn)
    requires WaitsWith(h, s, es)
    ensures WaitsWith(h, Heard(h, s, turn), es + [turn.event])
  {
    AwaitedSnoc(h.inCksum, es, turn.event);
    ParameterSnoc(h.inCksum, es, turn.event, PKT_TYPE_BUF);
    ParameterSnoc(h.inCksum, es, turn.event, PKT_TYPE_WIN);
    ParameterSnoc(h.inCksum, es, turn.event, PKT_TYPE_FLN);
    hide Awaited, Parameter, CString, Intact;
  }

  lemma HeardCounts(h: Host, s: Server, es: seq<Event>, turn: Turn)
    requires s.sequence == Awaited(h.inCksum, es) && s.retries == 10 - InitDeficit(h.inCksum, es)
    requires !turn.event.RecvError?
    ensures Heard(h, s, turn).retries == 10 - InitDeficit(h.inCksum, es + [turn.event])
  {
    InitDeficitSnoc(h.inCksum, es, turn.event);
    hide InitDeficit, Awaited, Intact;
  }

  /** The loop test and what follows it. */
  lemma LeavesWith(h: Host, s: Server, es: seq<Event>)
    requires WaitsWith(h, s, es) && s.retries == 10 - InitDeficit(h.inCksum, es)
    ensures var s1 := LeaveInit(h, s);
      if !Complete(h.inCksum, es) && InitDeficit(h.inCksum, es) < 10 then s1 == s
      else if InitDeficit(h.inCksum, es) < 10 && CString(Parameter(h.inCksum, es, PKT_TYPE_FLN).value.data) in h.files
      then OpensWith(h, s1, es)
      else s1.mode == ERROR
  {
    hide InitDeficit, Parameter, Awaited, CString;
  }

  /**
   * A fresh child on any trace, as long as it is in `init`: its number and its parameters are those of the packets that
   * carried the awaited numbers, every event has been answered with the number awaited then, and the counter is ten
   * less the deficit, in which a packet ahead of the awaited one counts like a corrupt one.
   */
  lemma {:induction false} WaitsExactly(h: Host, turns: seq<Turn>)
    requires Waiting(h, turns)
    ensures var (s, sent) := Trace(h, Forked(), turns);
      var es := Events(turns);
      && WaitsWith(h, s, es)
      && s.retries == 10 - InitDeficit(h.inCksum, es) > 0
      && sent == Answers(h.inCksum, es)
    decreases |turns|
  {
    hide WaitsWith, InitDeficit, Complete, Step, Heard, Answer;
    if turns == [] {
      Fresh(h);
    } else {
      var before, turn := Before(turns), turns[|turns| - 1];
      assert turns == before + [turn];
      WaitsExactly(h, before);
      OneMore(h, before, turn);
    }
  }

  lemma Fresh(h: Host)
    ensures WaitsWith(h, Forked(), []) && Forked().retries == 10 && InitDeficit(h.inCksum, []) == 0
    ensures Events([]) == [] && Answers(h.inCksum, []) == []
  {
  }

  /** One more turn of a child in `init`. */
  lemma OneMore(h: Host, turns: seq<Turn>, turn: Turn)
    requires var (s, sent) := Trace(h, Forked(), turns);
      && WaitsWith(h, s, Events(turns))
      && s.retries == 10 - InitDeficit(h.inCksum, Events(turns)) > 0
      && sent == Answers(h.inCksum, Events(turns))
    ensures var (s1, sent1) := Trace(h, Forked(), turns + [turn]);
      var es := Events(turns + [turn]);
      if InitFails(turn) then s1.mode == ERROR && sent1 == Answers(h.inCksum, Events(turns))
      else
        && sent1 == Answers(h.inCksum, es)
        && if !Complete(h.inCksum, es) && InitDeficit(h.inCksum, es) < 10
           then WaitsWith(h, s1, es) && s1.retries == 10 - InitDeficit(h.inCksum, es)
           else if InitDeficit(h.inCksum, es) < 10
                   && CString(Parameter(h.inCksum, es, PKT_TYPE_FLN).value.data) in h.files
           then OpensWith(h, s1, es)
           else s1.mode == ERROR
  {
    var (s, sent) := Trace(h, Forked(), turns);
    EventsSnoc(turns, turn);
    TraceSnoc(h, Forked(), turns, turn);
    assert s.mode == INIT && s.sequence == Awaited(h.inCksum, Events(turns));
    hide WaitsWith, InitDeficit, Complete, Heard, Answer, Parameter, Awaited, OpensWith, Trace;
    InitTurn(h, s, turn);
    hide Step;
    if InitFails(turn) {
      assert sent + [] == sent;
    } else {
      HeardWith(h, s, Events(turns), turn);
      HeardCounts(h, s, Events(turns), turn);
      LeavesWith(h, Heard(h, s, turn), Events(turns + [turn]));
      AnswersSnoc(h.inCksum, Events(turns), turn.event);
    }
  }

  /**
   * How it leaves `init`: with ERROR if a call fails, if ten retries are used up before the three parameters are there,
   * or if the file cannot be opened; otherwise, with all parameters, ready to read that file.
   */
  lemma LeavesInit(h: Host, turns: seq<Turn>, turn: Turn)
    requires Waiting(h, turns) && !Waiting(h, turns + [turn])
    ensures var (s, sent) := Trace(h, Forked(), turns + [turn]);
      var es := Events(turns + [turn]);
      if InitFails(turn) || !Complete(h.inCksum, es)
         || CString(Parameter(h.inCksum, es, PKT_TYPE_FLN).value.data) !in h.files
      then s.mode == ERROR
      else OpensWith(h, s, es) && sent == Answers(h.inCksum, es)
  {
    WaitsExactly(h, turns);
    OneMore(h, turns, turn);
    EventsSnoc(turns, turn);
    CompleteCostsNothing(h, turns, turn);
    assert Before(turns + [turn]) == turns;
    hide WaitsWith, InitDeficit, Parameter, OpensWith, Answers, Trace;
  }

  /** The event that completes the parameters resets the counter. */
  lemma CompleteCostsNothing(h: Host, turns: seq<Turn>, turn: Turn)
    requires Waiting(h, turns)
    ensures var es := Events(turns + [turn]);
      Complete(h.inCksum, es) ==> InitDeficit(h.inCksum, es) == 0
  {
    var es, e := Events(turns), turn.event;
    EventsSnoc(turns, turn);
    NotComplete(h, turns);
    ParameterSnoc(h.inCksum, es, e, PKT_TYPE_BUF);
    ParameterSnoc(h.inCksum, es, e, PKT_TYPE_WIN);
    ParameterSnoc(h.inCksum, es, e, PKT_TYPE_FLN);
    InitDeficitSnoc(h.inCksum, es, e);
    hide Parameter, InitDeficit, Awaited;
  }

  lemma NotComplete(h: Host, turns: seq<Turn>)
    requires Waiting(h, turns)
    ensures !Complete(h.inCksum, Events(turns))
  {
  }
}
