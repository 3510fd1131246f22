/** The client as step functions on its fields (Client.cpp). */
module ClientSpec {
  import opened Packets

  datatype Mode = INIT | ERROR | DONE | RECV_PACKETS

  /** The command-line arguments that reach the server. */
  datatype Request = Request(fromName: seq<byte>, bufferSize: uint32, windowSize: uint32)

  /** `index` is the loop counter of `init`; `output` is what has been written to `mvTo`. */
  datatype Client = Client(mode: Mode, retries: int, sequence: uint32, index: nat, output: seq<byte>)

  /** The checksum routine, and the memory a write longer than the payload array would read. */
  datatype Host = Host(inCksum: Checksum, beyond: nat -> byte)

  /** What a `write` does: take every byte, take the first `n` of them, or fail. */
  datatype Write = All | Short(n: nat) | Fails

  /** One reception, and what the `write`, the `sendto` and the `GetSocket` that follow it do. */
  datatype Turn = Turn(event: Event, write: Write, sendOk: bool, socketOk: bool)

  const INIT_PACKETS := 5

  /** The fields of a new client. */
  function Constructed(): Client {
    Client(INIT, PKT_TRNSMAX, 0, 0, [])
  }

  predicate Live(c: Client) {
    c.mode != DONE && c.mode != ERROR && c.retries > 0
  }

  // ----- init

  function NameData(name: seq<byte>): Data {
    if |name| < PKT_DMAX then name + [0] + seq(PKT_DMAX - |name| - 1, _ => PKT_TYPE_FLN) else name[..PKT_DMAX]
  }

  /** The packets `pkt[0]` to `pkt[4]`; sizes are cut to 16 bits. */
  function InitPkt(cksum: Checksum, req: Request, i: nat): Packet
    requires i < INIT_PACKETS
  {
    Seal(cksum,
         if i == 0 then Memset(PKT_TYPE_CXN).(sequence := 0)
         else if i == 1 then Memset(PKT_TYPE_CXN2).(sequence := 1)
         else if i == 2 then Memset(PKT_TYPE_BUF).(size := req.bufferSize % U16_SIZE, sequence := 2)
         else if i == 3 then Memset(PKT_TYPE_WIN).(size := req.windowSize % U16_SIZE, sequence := 3)
         else Memset(PKT_TYPE_FLN).(data := NameData(req.fromName), sequence := 4))
  }

  /** What the five packets are, byte by byte. */
  lemma InitPktBytes(cksum: Checksum, req: Request)
    ensures Uniform(cksum, InitPkt(cksum, req, 0), 0xFF, 0)
    ensures Uniform(cksum, InitPkt(cksum, req, 1), 0xEE, 1)
    ensures var p := InitPkt(cksum, req, 2);
      && p.typ == 0x99 && p.sequence == 2 && p.size == req.bufferSize % U16_SIZE
      && p.data == seq(PKT_DMAX, _ => 0x99) && p.checksum == cksum(p.(checksum := 0))
    ensures var p := InitPkt(cksum, req, 3);
      && p.typ == 0xCC && p.sequence == 3 && p.size == req.windowSize % U16_SIZE
      && p.data == seq(PKT_DMAX, _ => 0xCC) && p.checksum == cksum(p.(checksum := 0))
    ensures var p := InitPkt(cksum, req, 4);
      && p.typ == 0x33 && p.sequence == 4 && p.checksum == cksum(p.(checksum := 0))
      && (|req.fromName| < PKT_DMAX ==>
            p.data == req.fromName + [0] + seq(PKT_DMAX - |req.fromName| - 1, _ => 0x33))
  {
    UniformTail(cksum, InitPkt(cksum, req, 0), 0);
    UniformTail(cksum, InitPkt(cksum, req, 1), 1);
    hide Uniform;
  }

  /** The packet to send after answer `p` to packet `i`. */
  function NextIndex(i: nat, p: Packet): nat {
    if p.typ == PKT_TYPE_RR then if p.sequence == i then i + 1 else i
    else if p.typ == PKT_TYPE_REJ then if p.sequence <= i then p.sequence else i + 1
    else i + 1
  }

  /** The answer to packet 0 opens the socket for the child, and that fails. */
  predicate SocketFails(i: nat, p: Packet, turn: Turn) {
    i == 0 && p.typ == PKT_TYPE_RR && p.sequence == i && !turn.socketOk
  }

  /** The loop test of `init` with packet `i` next: send it, or leave. */
  function InitSend(h: Host, req: Request, c: Client, i: nat, sendOk: bool): (Client, seq<Packet>) {
    if i < INIT_PACKETS && c.retries > 0 then
      if sendOk then (c.(index := i), [InitPkt(h.inCksum, req, i)]) else (c.(mode := ERROR, index := 0), [])
    else if c.retries <= 0 then (c.(mode := ERROR, index := 0), [])
    else (c.(mode := RECV_PACKETS, index := 0, sequence := 0, retries := PKT_TRNSMAX), [])
  }

  /** From one send of `init` to the next: packet `index` is out and its answer is awaited. */
  function InitStep(h: Host, req: Request, c: Client, turn: Turn): (Client, seq<Packet>) {
    var (retries, r) := Receive(h.inCksum, c.retries, turn.event);
    match r
    case Failed => (c.(mode := ERROR, retries := retries, index := 0), [])
    case Again => InitSend(h, req, c.(retries := retries), c.index, turn.sendOk)
    case Got(p) =>
      if SocketFails(c.index, p, turn) then (c.(mode := ERROR, retries := PKT_TRNSMAX, index := 0), [])
      else InitSend(h, req, c.(retries := PKT_TRNSMAX), NextIndex(c.index, p), turn.sendOk)
  }

  // ----- recvPackets

  /** The `size` bytes that `write` takes from the packet. */
  function Written(h: Host, p: Packet): (w: seq<byte>)
    ensures |w| == p.size
  {
    if p.size <= PKT_DMAX then p.data[..p.size]
    else p.data + seq<byte>(p.size - PKT_DMAX, i requires 0 <= i => h.beyond(i))
  }

  /** What the output gains: a short `write` counts as success. */
  function Taken(bytes: seq<byte>, write: Write): seq<byte> {
    match write
    case All => bytes
    case Short(n) => if n < |bytes| then bytes[..n] else bytes
    case Fails => []
  }

  function SendReply(c: Client, reply: Packet, sendOk: bool): (Client, seq<Packet>) {
    if sendOk then (c, [reply]) else (c.(mode := ERROR), [])
  }

  function RecvPackets(h: Host, req: Request, c: Client, turn: Turn): (Client, seq<Packet>) {
    var (retries, r) := Receive(h.inCksum, c.retries, turn.event);
    var c1 := c.(retries := retries);
    match r
    case Failed => (c1.(mode := ERROR), [])
    case Again => SendReply(c1, RejPkt(h.inCksum, c.sequence), turn.sendOk)
    case Got(p) =>
      if p.sequence < c.sequence then SendReply(c1, RrPkt(h.inCksum, p.sequence), turn.sendOk)
      else if p.sequence > c.sequence then SendReply(c1, RejPkt(h.inCksum, c.sequence), turn.sendOk)
      else
        var c2 := c1.(sequence := Inc(c.sequence));
        if turn.write.Fails? then (c2.(mode := ERROR), [])
        else
          var c3 := c2.(output := c.output + Taken(Written(h, p), turn.write));
          if p.typ == PKT_TYPE_DAT && p.size < req.bufferSize then (c3.(mode := DONE), [])
          else SendReply(c3, RrPkt(h.inCksum, p.sequence), turn.sendOk)
  }

  // ----- Run

  function Step(h: Host, req: Request, c: Client, turn: Turn): (Client, seq<Packet>) {
    match c.mode
    case INIT => InitStep(h, req, c, turn)
    case RECV_PACKETS => RecvPackets(h, req, c, turn)
    case _ => (c, [])
  }

  const SILENCE := Turn(Timeout, All, true, true)

  function Head(turns: seq<Turn>): Turn {
    if turns == [] then SILENCE else turns[0]
  }

  function Tail(turns: seq<Turn>): seq<Turn> {
    if turns == [] then [] else turns[1..]
  }

  function Patience(c: Client): nat {
    if c.retries > 0 then c.retries else 0
  }

  /** The whole loop of `Run` on a trace of turns after which the network stays silent. */
  function Run(h: Host, req: Request, c: Client, turns: seq<Turn>): (Client, seq<Packet>)
    decreases |turns|, c.mode == INIT, Patience(c)
  {
    if !Live(c) then (c, []) else
    var (c1, sent) := Step(h, req, c, Head(turns));
    var (c2, later) := Run(h, req, c1, Tail(turns));
    (c2, sent + later)
  }

  /** `init` from a sent packet on: the fields on return, the packets sent and the turns left over. */
  function InitRun(h: Host, req: Request, c: Client, turns: seq<Turn>): (Client, seq<Packet>, seq<Turn>)
    decreases |turns|, c.mode == INIT, Patience(c)
  {
    if c.mode != INIT || c.retries <= 0 then (c, [], turns) else
    var (c1, sent) := InitStep(h, req, c, Head(turns));
    var (c2, later, rest) := InitRun(h, req, c1, Tail(turns));
    (c2, sent + later, rest)
  }

  /** `init` as a whole, up to its return. */
  function InitFrom(h: Host, req: Request, c: Client, i: nat, sendOk: bool, turns: seq<Turn>)
    : (Client, seq<Packet>, seq<Turn>)
  {
    var (c1, sent) := InitSend(h, req, c, i, sendOk);
    var (c2, later, rest) := InitRun(h, req, c1, turns);
    (c2, sent + later, rest)
  }

  lemma {:induction false} InitRunShrinks(h: Host, req: Request, c: Client, turns: seq<Turn>)
    requires c.mode == INIT ==> c.retries > 0
    ensures var (c1, sent, rest) := InitRun(h, req, c, turns);
      && c1.mode != INIT && |rest| <= |turns|
      && (c.mode != INIT ==> c1 == c && rest == turns)
      && (c.mode == INIT ==> c1.index == 0)
    decreases |turns|, c.mode == INIT, Patience(c)
  {
    if c.mode == INIT {
      InitRunShrinks(h, req, InitStep(h, req, c, Head(turns)).0, Tail(turns));
    }
  }

  /** `Run` spends a prefix of the trace in `init` and never returns to it. */
  lemma {:induction false} RunStartsWithInit(h: Host, req: Request, c: Client, turns: seq<Turn>)
    ensures var (c1, sent, rest) := InitRun(h, req, c, turns);
      var (c2, later) := Run(h, req, c1, rest);
      Run(h, req, c, turns) == (c2, sent + later)
    decreases |turns|, c.mode == INIT, Patience(c)
  {
    if c.mode == INIT && c.retries > 0 {
      hide InitSend;
      var (c1, sent) := Step(h, req, c, Head(turns));
      StepEndsInit(h, req, c, Head(turns));
      RunStartsWithInit(h, req, c1, Tail(turns));
      var (c2, mid, rest) := InitRun(h, req, c1, Tail(turns));
      assert sent + (mid + Run(h, req, c2, rest).1) == (sent + mid) + Run(h, req, c2, rest).1;
    } else {
      assert [] + Run(h, req, c, turns).1 == Run(h, req, c, turns).1;
    }
  }

  lemma StepEndsInit(h: Host, req: Request, c: Client, turn: Turn)
    requires Live(c)
    ensures var c1 := Step(h, req, c, turn).0;
      && (c1.mode == INIT ==> c.mode == INIT && c1.retries > 0)
      && (turn.event.Timeout? && c.mode != INIT ==> c1.retries < c.retries)
  {
  }

  // ----- what the loops of `init` and `Run` keep: the outcome is what was sent plus what remains to be run

  ghost predicate InitGoal(h: Host, req: Request, c: Client, i: nat, sendOk: bool, rest: seq<Turn>, sent: seq<Packet>,
                           goal: (Client, seq<Packet>, seq<Turn>))
  {
    var (c1, later, left) := InitFrom(h, req, c, i, sendOk, rest);
    goal == (c1, sent + later, left)
  }

  lemma InitGoalStep(h: Host, req: Request, c: Client, i: nat, sendOk: bool, rest: seq<Turn>, sent: seq<Packet>,
                     goal: (Client, seq<Packet>, seq<Turn>))
    requires c.mode == INIT && c.retries > 0 && i < INIT_PACKETS
    requires InitGoal(h, req, c, i, sendOk, rest, sent, goal)
    ensures !sendOk ==> goal == (c.(mode := ERROR, index := 0), sent, rest)
    ensures sendOk ==>
      var turn := Head(rest);
      var (retries, r) := Receive(h.inCksum, c.retries, turn.event);
      var out := sent + [InitPkt(h.inCksum, req, i)];
      match r
      case Failed => goal == (c.(mode := ERROR, retries := retries, index := 0), out, Tail(rest))
      case Again => InitGoal(h, req, c.(retries := retries, index := i), i, turn.sendOk, Tail(rest), out, goal)
      case Got(p) =>
        if SocketFails(i, p, turn) then goal == (c.(mode := ERROR, retries := PKT_TRNSMAX, index := 0), out, Tail(rest))
        else InitGoal(h, req, c.(retries := PKT_TRNSMAX, index := i), NextIndex(i, p), turn.sendOk, Tail(rest), out,
                      goal)
  {
    hide InitPkt, NextIndex, SocketFails;
    assert sent + ([] + []) == sent;
    if sendOk {
      var c1 := c.(index := i);
      var (c2, more) := InitStep(h, req, c1, Head(rest));
      var later := InitRun(h, req, c2, Tail(rest)).1;
      var first := [InitPkt(h.inCksum, req, i)];
      assert sent + (first + (more + later)) == (sent + first) + (more + later);
      assert c2.mode == ERROR ==> more + later == [] && (sent + first) + [] == sent + first;
    }
  }

  lemma InitGoalEnd(h: Host, req: Request, c: Client, i: nat, sendOk: bool, rest: seq<Turn>, sent: seq<Packet>,
                    goal: (Client, seq<Packet>, seq<Turn>))
    requires c.retries <= 0 || i >= INIT_PACKETS
    requires InitGoal(h, req, c, i, sendOk, rest, sent, goal)
    ensures goal == (InitSend(h, req, c, i, sendOk).0, sent, rest)
  {
    assert sent + ([] + []) == sent;
  }

  ghost predicate RunGoal(h: Host, req: Request, c: Client, rest: seq<Turn>, sent: seq<Packet>,
                          goal: (Client, seq<Packet>))
  {
    var (c1, later) := Run(h, req, c, rest);
    goal == (c1, sent + later)
  }

  lemma RunGoalStep(h: Host, req: Request, c: Client, rest: seq<Turn>, sent: seq<Packet>, goal: (Client, seq<Packet>))
    requires Live(c) && c.mode != INIT && RunGoal(h, req, c, rest, sent, goal)
    ensures var (c1, more) := Step(h, req, c, Head(rest));
      && RunGoal(h, req, c1, Tail(rest), sent + more, goal)
      && c1.mode != INIT
      && (rest == [] ==> c1.retries < c.retries)
  {
    StepEndsInit(h, req, c, Head(rest));
    hide Step;
    var (c1, more) := Step(h, req, c, Head(rest));
    var later := Run(h, req, c1, Tail(rest)).1;
    assert sent + (more + later) == (sent + more) + later;
  }

  lemma RunGoalInit(h: Host, req: Request, c: Client, turns: seq<Turn>, sent: seq<Packet>, goal: (Client, seq<Packet>),
                    startOk: bool)
    requires c.mode == INIT && c.retries > 0
    requires goal == Whole(h, req, c, startOk, turns, sent)
    ensures var (c1, more, rest) := InitFrom(h, req, c, 0, startOk, turns);
      && RunGoal(h, req, c1, rest, sent + more, goal)
      && c1.mode != INIT && c1.index == 0 && |rest| <= |turns|
  {
    var (c0, first) := InitSend(h, req, c, 0, startOk);
    InitRunShrinks(h, req, c0, turns);
    RunStartsWithInit(h, req, c0, turns);
    var (c1, more, rest) := InitRun(h, req, c0, turns);
    var later := Run(h, req, c1, rest).1;
    assert sent + (first + (more + later)) == (sent + (first + more)) + later;
  }

  /** The first send of `init`, then `Run`. */
  function Whole(h: Host, req: Request, c: Client, startOk: bool, turns: seq<Turn>, sent: seq<Packet>)
    : (Client, seq<Packet>)
  {
    var (c0, first) := InitSend(h, req, c, 0, startOk);
    var (c1, later) := Run(h, req, c0, turns);
    (c1, sent + (first + later))
  }

  lemma RunGoalEnd(h: Host, req: Request, c: Client, rest: seq<Turn>, sent: seq<Packet>, goal: (Client, seq<Packet>))
    requires !Live(c) && RunGoal(h, req, c, rest, sent, goal)
    ensures goal == (c, sent)
  {
    assert sent + [] == sent;
  }
}
