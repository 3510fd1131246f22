/** The forked server child as step functions on its fields (Server.cpp). */
module ServerSpec {
  import opened Packets
  import opened Chunks

  datatype Mode = INIT | ERROR | DONE | FILL_WINDOW | SEND_WINDOW | WAIT_RR

  /** The locals of `init`: which of the three parameters have arrived. */
  datatype Flags = Flags(winszSet: bool, bufszSet: bool, fnSet: bool)

  const NONE_SET := Flags(false, false, false)

  /** The fields of the child; `file` and `offset` stand for the open descriptor `mvFrom`. */
  datatype Server = Server(
    mode: Mode, retries: int, sequence: uint32,
    bufferSize: uint32, windowSize: uint32, fromName: seq<byte>,
    file: seq<byte>, offset: nat,
    window: seq<Packet>, outBuf: seq<Packet>, flags: Flags)

  /** What the child cannot see into: the checksum routine and the files that can be opened. */
  datatype Host = Host(inCksum: Checksum, files: map<seq<byte>, seq<byte>>)

  /** System calls fail never, or after `n` successful ones. */
  datatype Fault = NoFault | After(n: nat)

  /** The input of one pass through the child's loop. */
  datatype Turn = Turn(event: Event, fault: Fault)

  predicate Live(s: Server) {
    s.mode != DONE && s.mode != ERROR && s.retries > 0
  }

  /** The modes of the data phase. */
  predicate Active(s: Server) {
    s.mode == FILL_WINDOW || s.mode == SEND_WINDOW || s.mode == WAIT_RR
  }

  /** The modes that wait for a datagram. */
  predicate Receiving(s: Server) {
    s.mode == INIT || s.mode == WAIT_RR
  }

  // ----- init

  function Intake(s: Server, p: Packet): Server {
    var s1 := s.(sequence := Inc(s.sequence));
    if p.typ == PKT_TYPE_BUF then s1.(bufferSize := p.size, flags := s1.flags.(bufszSet := true))
    else if p.typ == PKT_TYPE_WIN then s1.(windowSize := p.size, flags := s1.flags.(winszSet := true))
    else if p.typ == PKT_TYPE_FLN then s1.(fromName := CString(p.data), flags := s1.flags.(fnSet := true))
    else s1
  }

  /** The loop test of `init` and, when the loop ends, the code after it. */
  function LeaveInit(h: Host, s: Server): Server {
    if !(s.flags.winszSet && s.flags.bufszSet && s.flags.fnSet) && s.retries > 0 then s
    else if s.retries <= 0 || s.fromName !in h.files then s.(mode := ERROR, flags := NONE_SET)
    else s.(mode := FILL_WINDOW, file := h.files[s.fromName], offset := 0,
            sequence := 0, retries := PKT_TRNSMAX, flags := NONE_SET)
  }

  function InitReply(h: Host, s: Server, reply: Packet, fault: Fault): (Server, seq<Packet>) {
    if fault == After(0) then (s.(mode := ERROR, flags := NONE_SET), [])
    else (LeaveInit(h, s), [reply])
  }

  /** One pass through the loop of `init`. */
  function InitStep(h: Host, s: Server, turn: Turn): (Server, seq<Packet>) {
    var (retries, r) := Receive(h.inCksum, s.retries, turn.event);
    match r
    case Failed => (s.(mode := ERROR, retries := retries, flags := NONE_SET), [])
    case Again => InitReply(h, s.(retries := retries), RejPkt(h.inCksum, s.sequence), turn.fault)
    case Got(p) =>
      if p.sequence <= s.sequence then
        var s1 := s.(retries := PKT_TRNSMAX);
        InitReply(h, if p.sequence == s.sequence then Intake(s1, p) else s1,
                  RrPkt(h.inCksum, s.sequence), turn.fault)
      else
        InitReply(h, s.(retries := retries - 1), RejPkt(h.inCksum, s.sequence), turn.fault)
  }

  // ----- fillWindow

  /** Read one buffer and append its packet to both queues. */
  function Push(h: Host, s: Server): Server {
    var bytes := Read(s.file, s.offset, s.bufferSize);
    var p := DatPkt(h.inCksum, s.sequence, bytes);
    s.(offset := s.offset + |bytes|, sequence := Inc(s.sequence), window := s.window + [p], outBuf := s.outBuf + [p])
  }

  /** The next read fits the payload array. */
  predicate ReadFits(s: Server) {
    |Read(s.file, s.offset, s.bufferSize)| <= PKT_DMAX
  }

  /** `Push` written out for a read that fits the payload array; the reads that follow it are no longer. */
  lemma PushBuilds(h: Host, s: Server)
    requires ReadFits(s)
    ensures var bytes := Read(s.file, s.offset, s.bufferSize);
      var buf := Packet(PKT_TYPE_DAT, s.sequence, 0, |bytes|, Pad(bytes));
      var p := buf.(checksum := h.inCksum(buf));
      Push(h, s) == s.(offset := s.offset + |bytes|, sequence := Inc(s.sequence),
                       window := s.window + [p], outBuf := s.outBuf + [p])
    ensures ReadFits(Push(h, s))
  {
  }

  function Less(fault: Fault): Fault {
    if fault.NoFault? || fault.n == 0 then fault else After(fault.n - 1)
  }

  function Fill(h: Host, s: Server, fault: Fault): Server
    decreases s.windowSize - |s.window|
  {
    if |s.window| >= s.windowSize then s.(mode := SEND_WINDOW)
    else if fault == After(0) then s.(mode := ERROR)
    else Fill(h, Push(h, s), Less(fault))
  }

  // ----- sendWindow

  function Sendable(s: Server, fault: Fault): nat {
    if fault.NoFault? then |s.outBuf| else Min(fault.n, |s.outBuf|)
  }

  function Send(s: Server, fault: Fault): (Server, seq<Packet>) {
    var n := Sendable(s, fault);
    (s.(outBuf := s.outBuf[n..], mode := if n == |s.outBuf| then WAIT_RR else ERROR), s.outBuf[..n])
  }

  // ----- waitRR

  /** `mvWindow.front().sequence`, or the next number to be read if the window is empty. */
  function Base(s: Server): uint32 {
    if s.window == [] then s.sequence else s.window[0].sequence
  }

  /** How many packets RR(k) takes off the window: all of them if the loop's 32-bit counter can never exceed k. */
  function Acked(window: seq<Packet>, k: uint32): (n: nat)
    requires window != [] && window[0].sequence <= k
    ensures n <= |window|
  {
    if k == U32_SIZE - 1 then |window| else Min(|window|, k - window[0].sequence + 1)
  }

  function Rewind(s: Server, k: uint32, fault: Fault): Server {
    if fault == After(0) then s.(sequence := k, mode := ERROR)
    else s.(sequence := k, offset := (s.bufferSize * k) % U32_SIZE, outBuf := [], window := [], mode := FILL_WINDOW)
  }

  function WaitRR(h: Host, s: Server, turn: Turn): Server {
    var (retries, r) := Receive(h.inCksum, s.retries, turn.event);
    var s1 := s.(retries := retries);
    match r
    case Failed => s1.(mode := ERROR)
    case Again => s1.(mode := FILL_WINDOW)
    case Got(p) =>
      if p.typ == PKT_TYPE_RR then
        if p.sequence >= Base(s) then
          s1.(window := if s.window == [] then [] else s.window[Acked(s.window, p.sequence)..],
              retries := PKT_TRNSMAX, mode := FILL_WINDOW)
        else s1
      else if p.typ == PKT_TYPE_REJ then
        if p.sequence >= Base(s) then s1.(outBuf := s.window, mode := FILL_WINDOW)
        else Rewind(s1, p.sequence, turn.fault)
      else s1
  }

  // ----- Child

  /** The fields of the child when `Run` forks it. */
  function Forked(): Server {
    Server(INIT, PKT_TRNSMAX, 1, 0, 0, [], [], 0, [], [], NONE_SET)
  }

  /** One pass through the child's loop: the new fields and the packets handed to `sendto`. */
  function Step(h: Host, s: Server, turn: Turn): (Server, seq<Packet>) {
    match s.mode
    case INIT => InitStep(h, s, turn)
    case FILL_WINDOW => (Fill(h, s, turn.fault), [])
    case SEND_WINDOW => Send(s, turn.fault)
    case WAIT_RR => (WaitRR(h, s, turn), [])
    case _ => (s, [])
  }

  /** Passes left before a silent network brings the loop back to a wait; `init` is never entered again. */
  function Rank(s: Server): nat {
    match s.mode
    case FILL_WINDOW => 2
    case SEND_WINDOW => 1
    case _ => 0
  }

  function Patience(s: Server): nat {
    if s.retries > 0 then s.retries else 0
  }

  const SILENCE := Turn(Timeout, NoFault)

  function Head(turns: seq<Turn>): Turn {
    if turns == [] then SILENCE else turns[0]
  }

  function Tail(turns: seq<Turn>): seq<Turn> {
    if turns == [] then [] else turns[1..]
  }

  /** `init` on a trace of turns: the fields on return, the packets sent and the turns left over. */
  function InitRun(h: Host, s: Server, turns: seq<Turn>): (Server, seq<Packet>, seq<Turn>)
    decreases |turns|, Patience(s)
  {
    if s.mode != INIT || s.retries <= 0 then (s, [], turns) else
    var (s1, sent) := Step(h, s, Head(turns));
    SilenceEnds(h, s);
    if s1.mode != INIT then (s1, sent, Tail(turns)) else
    var (s2, later, rest) := InitRun(h, s1, Tail(turns));
    (s2, sent + later, rest)
  }

  lemma SilenceEnds(h: Host, s: Server)
    requires Live(s)
    ensures var s1 := Step(h, s, SILENCE).0;
      (s.mode == INIT && s1.mode != INIT)
      || ((s1.mode != INIT || s.mode == INIT) && s1.retries < s.retries)
      || (s1.mode != INIT && s1.retries == s.retries && Rank(s1) < Rank(s))
  {
    if s.mode == FILL_WINDOW {
      FillMode(h, s, NoFault);
    }
  }

  lemma {:induction false} FillMode(h: Host, s: Server, fault: Fault)
    ensures var s1 := Fill(h, s, fault);
      && s1.retries == s.retries
      && s1.mode == if fault.After? && |s.window| + fault.n < s.windowSize then ERROR else SEND_WINDOW
    decreases s.windowSize - |s.window|
  {
    if |s.window| < s.windowSize && fault != After(0) {
      FillMode(h, Push(h, s), Less(fault));
    }
  }

  /** Filling touches no parameter. */
  lemma {:induction false} FillFrame(h: Host, s: Server, fault: Fault)
    ensures var s1 := Fill(h, s, fault);
      && s1.bufferSize == s.bufferSize && s1.windowSize == s.windowSize
      && s1.fromName == s.fromName && s1.file == s.file
    decreases s.windowSize - |s.window|
  {
    hide DatPkt, Read;
    if |s.window| < s.windowSize && fault != After(0) {
      FillFrame(h, Push(h, s), Less(fault));
    }
  }

  /** The whole loop of `Child` on a trace of turns after which the network stays silent. */
  function Child(h: Host, s: Server, turns: seq<Turn>): (Server, seq<Packet>)
    decreases |turns|, s.mode == INIT, Patience(s), Rank(s)
  {
    if !Live(s) then (s, []) else
    var (s1, sent) := Step(h, s, Head(turns));
    SilenceEnds(h, s);
    var (s2, later) := Child(h, s1, Tail(turns));
    (s2, sent + later)
  }

  // ----- what the loops of `init` and `Child` keep: the outcome is what was sent plus what remains to be run

  ghost predicate InitGoal(h: Host, s: Server, rest: seq<Turn>, sent: seq<Packet>,
                           goal: (Server, seq<Packet>, seq<Turn>))
  {
    var (s1, later, left) := InitRun(h, s, rest);
    goal == (s1, sent + later, left)
  }

  lemma InitGoalStep(h: Host, s: Server, rest: seq<Turn>, sent: seq<Packet>, goal: (Server, seq<Packet>, seq<Turn>))
    requires s.mode == INIT && s.retries > 0 && s.flags != Flags(true, true, true)
    requires InitGoal(h, LeaveInit(h, s), rest, sent, goal)
    ensures var (s1, more) := InitStep(h, s, Head(rest));
      && InitGoal(h, s1, Tail(rest), sent + more, goal)
      && (s1.mode != INIT ==> goal == (s1, sent + more, Tail(rest)))
  {
    hide InitStep;
    SilenceEnds(h, s);
    var (s1, more) := Step(h, s, Head(rest));
    var (s2, later, left) := InitRun(h, s1, Tail(rest));
    assert sent + (more + later) == (sent + more) + later;
    assert (sent + more) + [] == sent + more;
  }

  lemma InitGoalEnd(h: Host, s: Server, rest: seq<Turn>, sent: seq<Packet>, goal: (Server, seq<Packet>, seq<Turn>))
    requires s.flags == Flags(true, true, true) || s.retries <= 0
    requires InitGoal(h, LeaveInit(h, s), rest, sent, goal)
    ensures goal == (LeaveInit(h, s), sent, rest)
  {
    assert sent + [] == sent;
  }

  ghost predicate ChildGoal(h: Host, s: Server, rest: seq<Turn>, sent: seq<Packet>, goal: (Server, seq<Packet>)) {
    var (s1, later) := Child(h, s, rest);
    goal == (s1, sent + later)
  }

  lemma ChildGoalStep(h: Host, s: Server, rest: seq<Turn>, sent: seq<Packet>, goal: (Server, seq<Packet>))
    requires Live(s) && ChildGoal(h, s, rest, sent, goal)
    ensures var (s1, more) := Step(h, s, Head(rest));
      && ChildGoal(h, s1, Tail(rest), sent + more, goal)
      && (s.mode != INIT && rest == [] ==>
           s1.mode != INIT && (Patience(s1) < Patience(s) || (Patience(s1) == Patience(s) && Rank(s1) < Rank(s))))
  {
    hide Step;
    SilenceEnds(h, s);
    var (s1, more) := Step(h, s, Head(rest));
    var (s2, later) := Child(h, s1, Tail(rest));
    assert sent + (more + later) == (sent + more) + later;
  }

  lemma ChildGoalEnd(h: Host, s: Server, rest: seq<Turn>, sent: seq<Packet>, goal: (Server, seq<Packet>))
    requires !Live(s) && ChildGoal(h, s, rest, sent, goal)
    ensures goal == (s, sent)
  {
    assert sent + [] == sent;
  }

  lemma ChildGoalInit(h: Host, s: Server, rest: seq<Turn>, sent: seq<Packet>, goal: (Server, seq<Packet>))
    requires s.mode == INIT && s.retries > 0 && ChildGoal(h, s, rest, sent, goal)
    ensures var (s1, more, left) := InitRun(h, s, rest);
      && ChildGoal(h, s1, left, sent + more, goal)
      && s1.mode != INIT && |left| <= |rest|
  {
    hide Step;
    ChildStartsWithInit(h, s, rest);
    InitRunShrinks(h, s, rest);
    var (s1, more, left) := InitRun(h, s, rest);
    var later := Child(h, s1, left).1;
    assert sent + (more + later) == (sent + more) + later;
  }

  /** `Child` spends a prefix of the trace in `init` and never returns to it. */
  lemma {:induction false} ChildStartsWithInit(h: Host, s: Server, turns: seq<Turn>)
    ensures var (s1, sent, rest) := InitRun(h, s, turns);
      var (s2, later) := Child(h, s1, rest);
      Child(h, s, turns) == (s2, sent + later)
    decreases |turns|, Patience(s)
  {
    hide Step;
    if s.mode == INIT && s.retries > 0 {
      var (s1, sent) := Step(h, s, Head(turns));
      SilenceEnds(h, s);
      if s1.mode == INIT {
        ChildStartsWithInit(h, s1, Tail(turns));
        var (s2, mid, rest) := InitRun(h, s1, Tail(turns));
        assert sent + (mid + Child(h, s2, rest).1) == (sent + mid) + Child(h, s2, rest).1;
      }
    } else {
      assert [] + Child(h, s, turns).1 == Child(h, s, turns).1;
    }
  }

  // ----- where the source is defined

  /** Nothing `fillWindow` reads overruns the payload array, and `waitRR` takes `front()` of a window that has one. */
  predicate Defined(h: Host, s: Server, turn: Turn) {
    match s.mode
    case FILL_WINDOW => |s.window| < s.windowSize && turn.fault != After(0) ==> ReadFits(s)
    case WAIT_RR => s.window != [] || !Asks(Receive(h.inCksum, s.retries, turn.event).1)
    case _ => true
  }

  /** A packet that makes `waitRR` compare its number with the front of the window. */
  predicate Asks(r: Received) {
    r.Got? && (r.p.typ == PKT_TYPE_RR || r.p.typ == PKT_TYPE_REJ)
  }

  /** The whole loop of `Child` meets only defined passes on the trace. */
  predicate ChildDefined(h: Host, s: Server, turns: seq<Turn>)
    decreases |turns|, s.mode == INIT, Patience(s), Rank(s)
  {
    Live(s) ==>
      && Defined(h, s, Head(turns))
      && (SilenceEnds(h, s); ChildDefined(h, Step(h, s, Head(turns)).0, Tail(turns)))
  }

  /** The part of the trace that `init` leaves over is defined as well. */
  lemma {:induction false} InitKeepsDefined(h: Host, s: Server, turns: seq<Turn>)
    requires ChildDefined(h, s, turns)
    ensures ChildDefined(h, InitRun(h, s, turns).0, InitRun(h, s, turns).2)
    decreases |turns|, Patience(s)
  {
    hide Step, Defined;
    if s.mode == INIT && s.retries > 0 {
      SilenceEnds(h, s);
      var s1 := Step(h, s, Head(turns)).0;
      if s1.mode == INIT {
        InitKeepsDefined(h, s1, Tail(turns));
      }
    }
  }

  /** No file of the host fills more than the payload array. */
  predicate SmallFiles(h: Host) {
    forall name :: name in h.files ==> |h.files[name]| <= PKT_DMAX
  }

  /** The parameters a packet may announce: a buffer that cannot overrun the payload array and a window with room. */
  predicate SaneEvent(h: Host, e: Event) {
    e.Arrive? ==>
      && (e.p.typ == PKT_TYPE_BUF ==> e.p.size <= PKT_DMAX || SmallFiles(h))
      && (e.p.typ == PKT_TYPE_WIN ==> e.p.size > 0)
  }

  predicate SaneTurns(h: Host, turns: seq<Turn>) {
    forall i :: 0 <= i < |turns| ==> SaneEvent(h, turns[i].event)
  }

  predicate Sane(h: Host, s: Server) {
    && (s.flags.bufszSet ==> s.bufferSize <= PKT_DMAX || SmallFiles(h))
    && (Active(s) ==> s.bufferSize <= PKT_DMAX || |s.file| <= PKT_DMAX)
    && (s.flags.winszSet || Active(s) ==> s.windowSize > 0)
    && (s.mode == SEND_WINDOW || s.mode == WAIT_RR ==> s.window != [])
  }

  lemma SaneIsDefined(h: Host, s: Server, turn: Turn)
    requires Sane(h, s)
    ensures Defined(h, s, turn)
  {
  }

  lemma StepKeepsSane(h: Host, s: Server, turn: Turn)
    requires Sane(h, s) && SaneEvent(h, turn.event)
    ensures Sane(h, Step(h, s, turn).0)
  {
    match s.mode {
      case INIT => InitStepKeepsSane(h, s, turn);
      case FILL_WINDOW => FillKeepsSane(h, s, turn.fault);
      case _ =>
    }
  }

  lemma IntakeKeepsSane(h: Host, s: Server, p: Packet)
    requires s.mode == INIT && Sane(h, s) && SaneEvent(h, Arrive(p))
    ensures Sane(h, Intake(s, p)) && Intake(s, p).mode == INIT
  {
    hide CString, SmallFiles;
  }

  lemma LeaveInitKeepsSane(h: Host, s: Server)
    requires s.mode == INIT && Sane(h, s)
    ensures Sane(h, LeaveInit(h, s))
  {
  }

  lemma InitStepKeepsSane(h: Host, s: Server, turn: Turn)
    requires s.mode == INIT && Sane(h, s) && SaneEvent(h, turn.event)
    ensures Sane(h, InitStep(h, s, turn).0)
  {
    var (retries, r) := Receive(h.inCksum, s.retries, turn.event);
    var s1 := match r
      case Failed => s
      case Again => s.(retries := retries)
      case Got(p) =>
        if p.sequence < s.sequence then s.(retries := PKT_TRNSMAX)
        else if p.sequence == s.sequence then Intake(s.(retries := PKT_TRNSMAX), p)
        else s.(retries := retries - 1);
    if r.Got? {
      IntakeKeepsSane(h, s.(retries := PKT_TRNSMAX), r.p);
    }
    assert s1.mode == INIT && Sane(h, s1) by {
      hide Intake;
    }
    LeaveInitKeepsSane(h, s1);
    hide Intake, LeaveInit, RrPkt, RejPkt, SmallFiles;
  }

  lemma {:induction false} FillKeepsSane(h: Host, s: Server, fault: Fault)
    requires s.mode == FILL_WINDOW && Sane(h, s)
    ensures Sane(h, Fill(h, s, fault))
    decreases s.windowSize - |s.window|
  {
    hide DatPkt, Read;
    if |s.window| < s.windowSize && fault != After(0) {
      FillKeepsSane(h, Push(h, s), Less(fault));
    }
  }

  /** Sane parameters suffice: the source is defined on every trace that announces no others. */
  lemma {:induction false} SaneChildIsDefined(h: Host, s: Server, turns: seq<Turn>)
    requires Sane(h, s) && SaneTurns(h, turns)
    ensures ChildDefined(h, s, turns)
    decreases |turns|, s.mode == INIT, Patience(s), Rank(s)
  {
    hide Step, Sane, Defined;
    if Live(s) {
      SaneIsDefined(h, s, Head(turns));
      StepKeepsSane(h, s, Head(turns));
      SilenceEnds(h, s);
      SaneChildIsDefined(h, Step(h, s, Head(turns)).0, Tail(turns));
    }
  }

  // ----- the two queues

  /** The send queue is the tail of the window. */
  predicate IsTail(s: Server) {
    |s.outBuf| <= |s.window| && s.outBuf == s.window[|s.window| - |s.outBuf|..]
  }

  /** What is queued for sending: the tail of the window, and all of it or nothing between sends. */
  predicate Disciplined(s: Server) {
    match s.mode
    case INIT => s.window == [] && s.outBuf == []
    case FILL_WINDOW =>
      && |s.window| <= s.windowSize
      && (s.outBuf == [] || (s.outBuf == s.window && |s.window| == s.windowSize))
    case SEND_WINDOW => |s.window| == s.windowSize && IsTail(s)
    case WAIT_RR => |s.window| == s.windowSize && s.outBuf == []
    case _ => true
  }

  lemma ModAdd(x: uint32, n: nat)
    requires n > 0
    ensures (Inc(x) + (n - 1)) % U32_SIZE == (x + n) % U32_SIZE
  {
    if x + 1 == U32_SIZE {
      assert (n - 1 + U32_SIZE) % U32_SIZE == (n - 1) % U32_SIZE;
    }
  }

  /** `fillWindow` in closed form: the window is filled at its end, and what was read is queued behind what was. */
  lemma {:induction false} FillAppends(h: Host, s: Server, fault: Fault)
    requires |s.window| <= s.windowSize
    ensures var s1 := Fill(h, s, fault);
      s1.mode != ERROR ==>
        && s1.mode == SEND_WINDOW && |s1.window| == s.windowSize == s1.windowSize
        && s1.window[..|s.window|] == s.window
        && s1.outBuf == s.outBuf + s1.window[|s.window|..]
        && s1.sequence == (s.sequence + s.windowSize - |s.window|) % U32_SIZE
    decreases s.windowSize - |s.window|
  {
    hide DatPkt, Read, Inc;
    if |s.window| < s.windowSize {
      if fault != After(0) {
        var s1 := Push(h, s);
        FillAppends(h, s1, Less(fault));
        var s2 := Fill(h, s1, Less(fault));
        ModAdd(s.sequence, s.windowSize - |s.window|);
        if s2.mode != ERROR {
          assert s2.window[..|s.window|] == s2.window[..|s1.window|][..|s.window|];
          assert s2.window[|s.window|..] == [s2.window[|s.window|]] + s2.window[|s1.window|..];
          assert s2.window[|s.window|] == s2.window[..|s1.window|][|s.window|];
        }
      }
    }
  }

  /** The first packets of a window filled from scratch. */
  lemma FillStarts(h: Host, s: Server)
    requires s.window == [] && s.outBuf == [] && s.windowSize >= 1
    ensures var s1 := Fill(h, s, NoFault);
      var t := Push(h, s);
      && s1.mode == SEND_WINDOW && |s1.window| == s.windowSize && s1.outBuf == s1.window
      && s1.window[0] == t.window[0]
      && (s.windowSize == 1 ==> s1 == t.(mode := SEND_WINDOW))
      && (s.windowSize >= 2 ==> s1.window[1] == Push(h, t).window[1])
  {
    hide DatPkt, Read;
    var t := Push(h, s);
    FillMode(h, s, NoFault);
    FillAppends(h, s, NoFault);
    FillAppends(h, t, NoFault);
    var s1 := Fill(h, s, NoFault);
    assert s1 == Fill(h, t, NoFault);
    assert s1.window[0] == s1.window[..1][0];
    if s.windowSize >= 2 {
      FillAppends(h, Push(h, t), NoFault);
      assert s1.window[1] == s1.window[..2][1];
    }
  }

  lemma FillDisciplined(h: Host, s: Server, fault: Fault)
    requires s.mode == FILL_WINDOW && Disciplined(s)
    ensures Disciplined(Fill(h, s, fault))
  {
    FillAppends(h, s, fault);
    FillMode(h, s, fault);
    var s1 := Fill(h, s, fault);
    if s1.mode == SEND_WINDOW {
      assert s1.outBuf == s1.window[|s1.window| - |s1.outBuf|..];
    }
  }

  /** The event makes a waiting server rewind: an intact REJ below its window. */
  predicate Rewinding(h: Host, s: Server, e: Event) {
    e.Arrive? && Intact(h.inCksum, e.p) && e.p.typ == PKT_TYPE_REJ && e.p.sequence < Base(s)
  }

  /** What a waiting server has no use for: an intact RR below its window, or an intact packet of another type. */
  predicate Ignored(h: Host, s: Server, e: Event) {
    && e.Arrive? && Intact(h.inCksum, e.p) && e.p.typ != PKT_TYPE_REJ
    && (e.p.typ == PKT_TYPE_RR ==> e.p.sequence < Base(s))
  }

  /** A system call of the pass fails: one of its reads or sends, the reception, or the `lseek` of a rewind. */
  predicate CallFails(h: Host, s: Server, turn: Turn) {
    match s.mode
    case FILL_WINDOW => turn.fault.After? && |s.window| + turn.fault.n < s.windowSize
    case SEND_WINDOW => turn.fault.After? && turn.fault.n < |s.outBuf|
    case WAIT_RR => turn.event.RecvError? || (Rewinding(h, s, turn.event) && turn.fault == After(0))
    case _ => false
  }

  /**
   * Where a pass of the data phase leads: to ERROR exactly if a call fails, from a wait back to it exactly if the
   * packet is of no use, and otherwise on, also after a silent second and after a corrupt packet. Only SEND_WINDOW
   * sends.
   */
  lemma DataPassLeads(h: Host, s: Server, turn: Turn)
    requires Active(s)
    ensures var (s1, sent) := Step(h, s, turn);
      && s1.mode == (if CallFails(h, s, turn) then ERROR
                     else if s.mode == FILL_WINDOW then SEND_WINDOW
                     else if s.mode == SEND_WINDOW then WAIT_RR
                     else if Ignored(h, s, turn.event) then WAIT_RR
                     else FILL_WINDOW)
      && (s.mode != SEND_WINDOW ==> sent == [])
  {
    FillMode(h, s, turn.fault);
    hide Fill, Acked, Intact;
  }

  /**
   * What `sendWindow` sends: the queue from its front, as many packets as the calls that succeed, and what it has sent
   * leaves the queue.
   */
  lemma SendsUntilFailure(s: Server, fault: Fault)
    ensures var (s1, sent) := Send(s, fault);
      && sent + s1.outBuf == s.outBuf
      && (fault.NoFault? ==> s1.outBuf == [])
      && (fault.After? ==> |sent| == fault.n || (s1.outBuf == [] && |sent| < fault.n))
      && s1 == s.(outBuf := s1.outBuf, mode := s1.mode)
  {
  }

  /** What an event at WAIT_RR leaves of the window. */
  function Kept(h: Host, s: Server, e: Event): seq<Packet> {
    var r := Receive(h.inCksum, s.retries, e).1;
    if !Asks(r) || s.window == [] then s.window
    else if r.p.typ == PKT_TYPE_RR then
      if r.p.sequence >= Base(s) then s.window[Acked(s.window, r.p.sequence)..] else s.window
    else if r.p.sequence >= Base(s) then s.window else []
  }

  /** The receptions after which everything in the window is sent again. */
  predicate Resends(h: Host, s: Server, e: Event) {
    var r := Receive(h.inCksum, s.retries, e).1;
    r.Got? && r.p.typ == PKT_TYPE_REJ
  }

  lemma InitStepKeepsQueues(h: Host, s: Server, turn: Turn)
    ensures var s1 := InitStep(h, s, turn).0;
      && s1.window == s.window && s1.outBuf == s.outBuf
      && (s1.mode == s.mode || s1.mode == ERROR || s1.mode == FILL_WINDOW)
  {
    hide RrPkt, RejPkt, CString;
  }

  /** What a reception leaves in the window, and what it queues. */
  lemma WaitKeeps(h: Host, s: Server, turn: Turn)
    requires s.mode == WAIT_RR && s.outBuf == []
    ensures var s1 := WaitRR(h, s, turn);
      && (s1.mode == ERROR || s1.mode == FILL_WINDOW || s1.mode == WAIT_RR)
      && s1.windowSize == s.windowSize
      && (s1.mode != ERROR ==> s1.window == Kept(h, s, turn.event))
      && (s1.mode == FILL_WINDOW ==> s1.outBuf == if Resends(h, s, turn.event) then s1.window else [])
      && (s1.mode == WAIT_RR ==> s1.window == s.window && s1.outBuf == [])
  {
    hide Acked;
  }

  lemma KeptLength(h: Host, s: Server, e: Event)
    ensures |Kept(h, s, e)| <= |s.window|
    ensures Resends(h, s, e) ==> Kept(h, s, e) == s.window || Kept(h, s, e) == []
  {
    hide Acked;
  }

  lemma WaitDisciplined(h: Host, s: Server, turn: Turn)
    requires s.mode == WAIT_RR && Disciplined(s)
    ensures Disciplined(WaitRR(h, s, turn))
  {
    WaitKeeps(h, s, turn);
    KeptLength(h, s, turn.event);
    hide WaitRR, Kept, Resends;
  }

  lemma StepKeepsDiscipline(h: Host, s: Server, turn: Turn)
    requires Disciplined(s)
    ensures Disciplined(Step(h, s, turn).0)
  {
    match s.mode {
      case FILL_WINDOW => FillDisciplined(h, s, turn.fault);
      case INIT => InitStepKeepsQueues(h, s, turn);
      case WAIT_RR => WaitDisciplined(h, s, turn);
      case _ =>
    }
    hide InitStep, Fill, WaitRR;
  }

  /** The child after a trace of turns, and what it has sent on it; it takes no turn once it has stopped. */
  function Trace(h: Host, s: Server, turns: seq<Turn>): (Server, seq<Packet>)
    decreases |turns|
  {
    if turns == [] || !Live(s) then (s, []) else
    var (s1, sent) := Step(h, s, turns[0]);
    var (s2, later) := Trace(h, s1, turns[1..]);
    (s2, sent + later)
  }

  lemma {:induction false} TraceDisciplined(h: Host, s: Server, turns: seq<Turn>)
    requires Disciplined(s)
    ensures Disciplined(Trace(h, s, turns).0)
    ensures Sane(h, s) && SaneTurns(h, turns) ==> Sane(h, Trace(h, s, turns).0)
    decreases |turns|
  {
    hide Step, Disciplined, Sane, SaneEvent;
    if turns != [] && Live(s) {
      StepKeepsDiscipline(h, s, turns[0]);
      if Sane(h, s) && SaneTurns(h, turns) {
        StepKeepsSane(h, s, turns[0]);
      }
      TraceDisciplined(h, Step(h, s, turns[0]).0, turns[1..]);
    }
  }

  /**
   * On every trace whatever: at SEND_WINDOW the send queue is a tail of a full window, at WAIT_RR it is empty and the
   * window is full; a sane trace gives the window a front at both.
   */
  lemma QueueDiscipline(h: Host, turns: seq<Turn>)
    ensures var s := Trace(h, Forked(), turns).0;
      && (s.mode == SEND_WINDOW ==>
            && |s.outBuf| <= |s.window| == s.windowSize
            && s.outBuf == s.window[|s.window| - |s.outBuf|..])
      && (s.mode == WAIT_RR ==> s.outBuf == [] && |s.window| == s.windowSize)
      && (SaneTurns(h, turns) && (s.mode == SEND_WINDOW || s.mode == WAIT_RR) ==> s.window != [])
  {
    TraceDisciplined(h, Forked(), turns);
  }

  /**
   * What one reception makes the server send next: after a REJ inside or above the window all of it, after a REJ
   * below it the window that starts there, after RR the packets that refill the window, otherwise nothing.
   */
  lemma NextSend(h: Host, s: Server, e: Event)
    requires s.mode == WAIT_RR && Disciplined(s)
    ensures var s1 := WaitRR(h, s, Turn(e, NoFault));
      s1.mode == FILL_WINDOW ==>
        var s2 := Fill(h, s1, NoFault);
        var kept := Kept(h, s, e);
        && s2.mode == SEND_WINDOW && |s2.window| == s.windowSize
        && s2.window[..|kept|] == kept
        && s2.outBuf == (if Resends(h, s, e) then s2.window else s2.window[|kept|..])
        && s2.sequence == (s1.sequence + s.windowSize - |kept|) % U32_SIZE
  {
    hide WaitRR, Kept, Resends, Fill, IsTail;
    var s1 := WaitRR(h, s, Turn(e, NoFault));
    if s1.mode == FILL_WINDOW {
      WaitKeeps(h, s, Turn(e, NoFault));
      KeptLength(h, s, e);
      FillMode(h, s1, NoFault);
      FillAppends(h, s1, NoFault);
      var s2 := Fill(h, s1, NoFault);
      assert s2.window[..|s1.window|] + s2.window[|s1.window|..] == s2.window;
    }
  }

  lemma {:induction false} InitRunShrinks(h: Host, s: Server, turns: seq<Turn>)
    requires s.mode == INIT && s.retries > 0
    ensures var (s1, sent, rest) := InitRun(h, s, turns);
      s1.mode != INIT && |rest| <= |turns|
    decreases |turns|, Patience(s)
  {
    SilenceEnds(h, s);
    var s1 := Step(h, s, Head(turns)).0;
    if s1.mode == INIT {
      InitRunShrinks(h, s1, Tail(turns));
    }
  }
}
