/** The server child as the object the source has: fields, queues and loops (Server.cpp). */
module ServerProgram {
  import opened Packets
  import opened Chunks
  import opened S = ServerSpec

  class Server {
    const host: Host
    var mvState: Mode
    var mvRetries: int
    var mvSequence: uint32
    var mvBufferSize: uint32
    var mvWindowSize: uint32
    var mvFromName: seq<byte>
    // the open file behind mvFrom: its contents and its offset
    var mvFrom: seq<byte>
    var mvOffset: nat
    var mvWindow: seq<Packet>
    var mvOutBuf: seq<Packet>
    // every packet handed to sendto, in order
    var wire: seq<Packet>

    function Snapshot(): S.Server
      reads this
    {
      S.Server(mvState, mvRetries, mvSequence, mvBufferSize, mvWindowSize, mvFromName, mvFrom, mvOffset,
               mvWindow, mvOutBuf, NONE_SET)
    }

    /** The state in which `Run` forks the child. */
    constructor (host: Host)
      ensures this.host == host && wire == []
      ensures Snapshot() == Forked()
    {
      this.host := host;
      mvState, mvRetries, mvSequence := INIT, PKT_TRNSMAX, 1;
      mvBufferSize, mvWindowSize, mvFromName := 0, 0, [];
      mvFrom, mvOffset := [], 0;
      mvWindow, mvOutBuf, wire := [], [], [];
    }

    method RecvPacket(e: Event) returns (r: Received)
      modifies this`mvRetries
      ensures (mvRetries, r) == Receive(host.inCksum, old(mvRetries), e)
    {
      if e.Timeout? {
        mvRetries := mvRetries - 1;
        return Again;
      }
      mvRetries := PKT_TRNSMAX;
      if e.RecvError? {
        return Failed;
      }
      var buf := e.p;
      var ck := buf.checksum;
      buf := buf.(checksum := 0);
      buf := buf.(checksum := host.inCksum(buf));
      if buf.checksum != ck {
        mvRetries := mvRetries - 1;
        return Again;
      }
      assert buf == e.p;
      return Got(buf);
    }

    /** The packet `init` waits for: note its parameter. */
    method TakeParameter(p: Packet, winszSet: bool, bufszSet: bool, fnSet: bool)
      returns (winszSet': bool, bufszSet': bool, fnSet': bool)
      modifies this`mvSequence, this`mvBufferSize, this`mvWindowSize, this`mvFromName
      ensures Snapshot().(flags := Flags(winszSet', bufszSet', fnSet'))
           == Intake(old(Snapshot()).(flags := Flags(winszSet, bufszSet, fnSet)), p)
    {
      winszSet', bufszSet', fnSet' := winszSet, bufszSet, fnSet;
      mvSequence := Inc(mvSequence);
      if p.typ == PKT_TYPE_BUF {
        mvBufferSize := p.size;
        bufszSet' := true;
      } else if p.typ == PKT_TYPE_WIN {
        mvWindowSize := p.size;
        winszSet' := true;
      } else if p.typ == PKT_TYPE_FLN {
        mvFromName := CString(p.data);
        fnSet' := true;
      }
    }

    /** One pass through the loop of `init`; `ok` is false when it returns ERROR. */
    method InitPass(turn: Turn, winszSet: bool, bufszSet: bool, fnSet: bool)
      returns (ok: bool, winszSet': bool, bufszSet': bool, fnSet': bool)
      requires mvState == INIT
      modifies this`mvRetries, this`mvSequence, this`mvBufferSize, this`mvWindowSize, this`mvFromName, this`wire
      ensures var (s, sent) := InitStep(host, old(Snapshot()).(flags := Flags(winszSet, bufszSet, fnSet)), turn);
        && wire == old(wire) + sent
        && s == if ok then LeaveInit(host, Snapshot().(flags := Flags(winszSet', bufszSet', fnSet')))
                else Snapshot().(mode := ERROR)
      ensures turn.event.Timeout? ==> mvRetries < old(mvRetries)
    {
      hide RrPkt, RejPkt, Intake, LeaveInit;
      winszSet', bufszSet', fnSet' := winszSet, bufszSet, fnSet;
      var outpkt;
      var r := RecvPacket(turn.event);
      match r {
        case Failed =>
          ok := false;
          return;
        case Again =>
          outpkt := RejPkt(host.inCksum, mvSequence);
        case Got(inpkt) =>
          if inpkt.sequence <= mvSequence {
            mvRetries := PKT_TRNSMAX;
            outpkt := RrPkt(host.inCksum, mvSequence);
            if inpkt.sequence == mvSequence {
              winszSet', bufszSet', fnSet' := TakeParameter(inpkt, winszSet, bufszSet, fnSet);
            }
          } else {
            mvRetries := mvRetries - 1;
            outpkt := RejPkt(host.inCksum, mvSequence);
          }
      }
      if turn.fault == After(0) {
        ok := false;
        return;
      }
      wire := wire + [outpkt];
      ok := true;
    }

    method Init(turns: seq<Turn>) returns (state: Mode, rest: seq<Turn>)
      requires mvState == INIT
      modifies this
      ensures var (s, sent, left) := InitRun(host, LeaveInit(host, old(Snapshot())), turns);
        && Snapshot() == s.(mode := INIT) && state == s.mode
        && wire == old(wire) + sent && rest == left
    {
      var winszSet, bufszSet, fnSet := false, false, false;
      rest := turns;
      ghost var now := Snapshot();
      ghost var (s, sent, left) := InitRun(host, LeaveInit(host, now), turns);
      ghost var goal := (s, wire + sent, left);
      hide InitRun, InitStep, LeaveInit;
      while (!winszSet || !bufszSet || !fnSet) && mvRetries > 0
        invariant mvState == INIT && now == Snapshot().(flags := Flags(winszSet, bufszSet, fnSet))
        invariant InitGoal(host, LeaveInit(host, now), rest, wire, goal)
        decreases |rest|, mvRetries
      {
        hide InitGoal;
        InitGoalStep(host, now, rest, wire, goal);
        var turn := Head(rest);
        var ok;
        ok, winszSet, bufszSet, fnSet := InitPass(turn, winszSet, bufszSet, fnSet);
        rest := Tail(rest);
        if !ok {
          state := ERROR;
          return;
        }
        now := Snapshot().(flags := Flags(winszSet, bufszSet, fnSet));
      }
      InitGoalEnd(host, now, rest, wire, goal);
      state := OpenFile(now.flags);
    }

    /** `init` after its loop. */
    method OpenFile(ghost flags: Flags) returns (state: Mode)
      requires flags == Flags(true, true, true) || mvRetries <= 0
      modifies this`mvFrom, this`mvOffset, this`mvSequence, this`mvRetries
      ensures Snapshot().(mode := state) == LeaveInit(host, old(Snapshot()).(flags := flags)) && state != INIT
    {
      if mvRetries <= 0 {
        return ERROR;
      }
      if mvFromName !in host.files {
        return ERROR;
      }
      mvFrom, mvOffset := host.files[mvFromName], 0;
      mvSequence := 0;
      mvRetries := PKT_TRNSMAX;
      return FILL_WINDOW;
    }

    method FillWindow(fault: Fault) returns (state: Mode)
      requires |mvWindow| < mvWindowSize && fault != After(0) ==> ReadFits(Snapshot())
      modifies this`mvWindow, this`mvOutBuf, this`mvSequence, this`mvOffset
      ensures Snapshot().(mode := state) == Fill(host, old(Snapshot()), fault)
    {
      var f := fault;
      hide Pad, Push, Read;
      while |mvWindow| < mvWindowSize
        invariant |mvWindow| < mvWindowSize && f != After(0) ==> ReadFits(Snapshot())
        invariant Fill(host, Snapshot(), f) == Fill(host, old(Snapshot()), fault)
      {
        if f == After(0) {
          return ERROR;
        }
        f := Less(f);
        PushBuilds(host, Snapshot());
        var data := Read(mvFrom, mvOffset, mvBufferSize);
        mvOffset := mvOffset + |data|;
        var buf := Packet(PKT_TYPE_DAT, mvSequence, 0, |data|, Pad(data));
        mvSequence := Inc(mvSequence);
        buf := buf.(checksum := host.inCksum(buf));
        mvWindow := mvWindow + [buf];
        mvOutBuf := mvOutBuf + [buf];
      }
      return SEND_WINDOW;
    }

    method SendWindow(fault: Fault) returns (state: Mode)
      modifies this`mvOutBuf, this`wire
      ensures var (s, sent) := S.Send(old(Snapshot()), fault);
        Snapshot().(mode := state) == s && wire == old(wire) + sent
    {
      var f := fault;
      ghost var n := 0;
      while mvOutBuf != []
        invariant 0 <= n <= |old(mvOutBuf)|
        invariant mvOutBuf == old(mvOutBuf)[n..] && wire == old(wire) + old(mvOutBuf)[..n]
        invariant fault.After? ==> n <= fault.n
        invariant f == if fault.NoFault? then fault else After(fault.n - n)
        decreases |mvOutBuf|
      {
        if f == After(0) {
          return ERROR;
        }
        f := Less(f);
        wire := wire + [mvOutBuf[0]];
        mvOutBuf := mvOutBuf[1..];
        n := n + 1;
      }
      return WAIT_RR;
    }

    method WaitRR(turn: Turn) returns (state: Mode)
      requires mvState == WAIT_RR
      requires mvWindow != [] || !Asks(Receive(host.inCksum, mvRetries, turn.event).1)
      modifies this`mvRetries, this`mvWindow, this`mvOutBuf, this`mvSequence, this`mvOffset
      ensures Snapshot().(mode := state) == S.WaitRR(host, old(Snapshot()), turn)
    {
      var r := RecvPacket(turn.event);
      if r.Failed? {
        return ERROR;
      }
      if r.Again? {
        return FILL_WINDOW;
      }
      var buf := r.p;
      if buf.typ == PKT_TYPE_RR {
        if buf.sequence >= mvWindow[0].sequence {
          ShiftWindow(buf.sequence);
          mvRetries := PKT_TRNSMAX;
          return FILL_WINDOW;
        }
      } else if buf.typ == PKT_TYPE_REJ {
        if buf.sequence >= mvWindow[0].sequence {
          mvOutBuf := mvWindow;
          return FILL_WINDOW;
        } else {
          mvSequence := buf.sequence;
          if turn.fault == After(0) {
            return ERROR;
          }
          mvOffset := (mvBufferSize * mvSequence) % U32_SIZE;
          mvOutBuf := [];
          mvWindow := [];
          return FILL_WINDOW;
        }
      }
      return WAIT_RR;
    }

    /** The pop loop for RR(k), with its 32-bit counter. */
    method ShiftWindow(k: uint32)
      requires mvWindow != [] && mvWindow[0].sequence <= k
      modifies this`mvWindow
      ensures mvWindow == old(mvWindow)[Acked(old(mvWindow), k)..]
    {
      var front: uint32 := mvWindow[0].sequence;
      var i: uint32 := front;
      ghost var n := 0;
      while mvWindow != [] && i <= k
        invariant 0 <= n <= |old(mvWindow)| && mvWindow == old(mvWindow)[n..]
        invariant k < U32_SIZE - 1 ==> i == front + n && i <= k + 1
        decreases |mvWindow|
      {
        mvWindow := mvWindow[1..];
        i := Inc(i);
        n := n + 1;
      }
    }

    /** One pass through the state loop after `init`. */
    method DataPass(turn: Turn)
      requires Active(Snapshot()) && Defined(host, Snapshot(), turn)
      modifies this`mvState, this`mvRetries, this`mvSequence, this`mvOffset, this`mvWindow, this`mvOutBuf, this`wire
      ensures var (s, sent) := Step(host, old(Snapshot()), turn);
        Snapshot() == s && wire == old(wire) + sent
    {
      match mvState {
        case FILL_WINDOW => mvState := FillWindow(turn.fault);
        case SEND_WINDOW => mvState := SendWindow(turn.fault);
        case WAIT_RR => mvState := WaitRR(turn);
      }
      assert old(wire) + [] == old(wire);
    }

    /** The state loop: it ends on every trace, as a silent network uses up the retries. */
    method Child(turns: seq<Turn>)
      requires Snapshot() == Forked() && ChildDefined(host, Forked(), turns)
      modifies this
      ensures var (s, sent) := S.Child(host, Forked(), turns);
        Snapshot() == s && wire == old(wire) + sent
      ensures !Live(Snapshot())
    {
      var rest := turns;
      ghost var goal := (S.Child(host, Forked(), turns).0, wire + S.Child(host, Forked(), turns).1);
      hide InitRun, Step, S.Child;
      while mvState != DONE && mvState != ERROR && mvRetries > 0
        invariant ChildDefined(host, Snapshot(), rest)
        invariant ChildGoal(host, Snapshot(), rest, wire, goal)
        decreases |rest|, mvState == INIT, Patience(Snapshot()), Rank(Snapshot())
      {
        hide ChildGoal;
        ghost var now := Snapshot();
        if mvState == INIT {
          ChildGoalInit(host, now, rest, wire, goal);
          InitKeepsDefined(host, now, rest);
          assert LeaveInit(host, now) == now;
          mvState, rest := Init(rest);
        } else {
          ChildGoalStep(host, now, rest, wire, goal);
          DataPass(Head(rest));
          rest := Tail(rest);
        }
      }
      ChildGoalEnd(host, Snapshot(), rest, wire, goal);
    }
  }
}
