/** The client as the object the source has (Client.cpp). */
module ClientProgram {
  import opened Packets
  import opened S = ClientSpec

  class Client {
    const host: Host
    const req: Request
    var mvState: Mode
    var mvRetries: int
    var mvSequence: uint32
    // what has been written to mvTo
    var mvTo: seq<byte>
    // every packet handed to sendto, in order
    var wire: seq<Packet>

    function Snapshot(): S.Client
      reads this
    {
      S.Client(mvState, mvRetries, mvSequence, 0, mvTo)
    }

    constructor (host: Host, req: Request)
      ensures this.host == host && this.req == req && wire == []
      ensures Snapshot() == Constructed()
    {
      this.host, this.req := host, req;
      mvState, mvRetries, mvSequence, mvTo := INIT, PKT_TRNSMAX, 0, [];
      wire := [];
    }

    method RecvPacket(e: Event) returns (r: Received)
      modifies this`mvRetries
      ensures (mvRetries, r) == Receive(host.inCksum, old(mvRetries), e)
    {
      if e.Timeout? {
        mvRetries := mvRetries - 1;
        return Again;
      }
      mvRetries := PKT_TRNSMAX;
      if e.RecvError? {
        return Failed;
      }
      var buf := e.p;
      var ck := buf.checksum;
      buf := buf.(checksum := 0);
      buf := buf.(checksum := host.inCksum(buf));
      if buf.checksum != ck {
        mvRetries := mvRetries - 1;
        return Again;
      }
      assert buf == e.p;
      return Got(buf);
    }

    method WriteTo(p: Packet, write: Write) returns (ok: bool)
      modifies this`mvTo
      ensures ok == !write.Fails?
      ensures mvTo == old(mvTo) + Taken(Written(host, p), write)
    {
      if write.Fails? {
        assert old(mvTo) + [] == mvTo;
        return false;
      }
      mvTo := mvTo + Taken(Written(host, p), write);
      return true;
    }

    /** `init`; `startOk` tells whether the first `sendto` succeeds. */
    method Init(startOk: bool, turns: seq<Turn>) returns (state: Mode, rest: seq<Turn>)
      requires mvState == INIT
      modifies this
      ensures var (c, sent, left) := InitFrom(host, req, old(Snapshot()), 0, startOk, turns);
        && Snapshot() == c.(mode := INIT, index := 0) && state == c.mode
        && wire == old(wire) + sent && rest == left
    {
      var sendOk := startOk;
      rest := turns;
      ghost var now := Snapshot();
      ghost var (c, sent, left) := InitFrom(host, req, now, 0, startOk, turns);
      ghost var goal := (c, wire + sent, left);
      hide InitFrom, NextIndex, InitPkt, SocketFails;
      var i: int := 0;
      while i < INIT_PACKETS && mvRetries > 0
        invariant 0 <= i
        invariant now == Snapshot().(index := now.index) && mvState == INIT
        invariant InitGoal(host, req, now, i, sendOk, rest, wire, goal)
        decreases |rest|, mvRetries
      {
        hide InitGoal;
        InitGoalStep(host, req, now, i, sendOk, rest, wire, goal);
        ghost var sentIndex := i;
        if !sendOk {
          state := ERROR;
          return;
        }
        wire := wire + [InitPkt(host.inCksum, req, i)];
        var turn := Head(rest);
        rest := Tail(rest);
        sendOk := turn.sendOk;
        var r := RecvPacket(turn.event);
        if r.Failed? {
          state := ERROR;
          return;
        }
        if r.Again? {
          i := i - 1;
        } else {
          mvRetries := PKT_TRNSMAX;
          var ok;
          ok, i := Answered(i, r.p, turn);
          if !ok {
            state := ERROR;
            return;
          }
        }
        i := i + 1;
        now := Snapshot().(index := sentIndex);
      }
      InitGoalEnd(host, req, now, i, sendOk, rest, wire, goal);
      if mvRetries <= 0 {
        state := ERROR;
        return;
      }
      mvSequence := 0;
      mvRetries := PKT_TRNSMAX;
      state := RECV_PACKETS;
    }

    /** The loop counter of `init` after an answer, before it is incremented; `ok` is false when it returns ERROR. */
    method Answered(index: nat, inpkt: Packet, turn: Turn) returns (ok: bool, i: int)
      ensures ok == !SocketFails(index, inpkt, turn)
      ensures ok ==> i + 1 == NextIndex(index, inpkt)
    {
      ok, i := true, index;
      if inpkt.typ == PKT_TYPE_RR {
        if inpkt.sequence == i && i == 0 {
          ok := turn.socketOk;
        } else if inpkt.sequence != i {
          i := i - 1;
        }
      } else if inpkt.typ == PKT_TYPE_REJ {
        if inpkt.sequence <= i {
          i := inpkt.sequence - 1;
        }
      }
    }

    method RecvPackets(turn: Turn) returns (state: Mode)
      requires mvState == RECV_PACKETS
      modifies this`mvRetries, this`mvSequence, this`mvTo, this`wire
      ensures var (c, sent) := S.RecvPackets(host, req, old(Snapshot()), turn);
        Snapshot().(mode := state) == c && wire == old(wire) + sent
    {
      hide RrPkt, RejPkt, Written;
      assert wire + [] == wire;
      var outpkt;
      var r := RecvPacket(turn.event);
      match r {
        case Failed =>
          return ERROR;
        case Again =>
          outpkt := RejPkt(host.inCksum, mvSequence);
        case Got(inpkt) =>
          if inpkt.sequence <= mvSequence {
            mvRetries := PKT_TRNSMAX;
            outpkt := RrPkt(host.inCksum, inpkt.sequence);
            if inpkt.sequence == mvSequence {
              mvSequence := Inc(mvSequence);
              var ok := WriteTo(inpkt, turn.write);
              if !ok {
                return ERROR;
              }
              if inpkt.typ == PKT_TYPE_DAT && inpkt.size < req.bufferSize {
                return DONE;
              }
            }
          } else {
            outpkt := RejPkt(host.inCksum, mvSequence);
          }
      }
      if !turn.sendOk {
        return ERROR;
      }
      wire := wire + [outpkt];
      return RECV_PACKETS;
    }

    /** The state loop: it ends on every trace, as a silent network uses up the retries. */
    method Run(startOk: bool, turns: seq<Turn>)
      requires Snapshot() == Constructed()
      modifies this
      ensures (Snapshot(), wire) == Whole(host, req, Constructed(), startOk, turns, old(wire))
      ensures !Live(Snapshot())
    {
      var rest := turns;
      ghost var goal := Whole(host, req, Constructed(), startOk, turns, wire);
      hide Whole, InitFrom, S.RecvPackets, S.Run;
      while mvState != DONE && mvState != ERROR && mvRetries > 0
        invariant if mvState == INIT then Snapshot() == Constructed() && rest == turns && wire == old(wire)
                  else RunGoal(host, req, Snapshot(), rest, wire, goal)
        decreases |rest|, mvState == INIT, mvRetries
      {
        hide RunGoal;
        if mvState == INIT {
          RunGoalInit(host, req, Constructed(), turns, wire, goal, startOk);
          mvState, rest := Init(startOk, rest);
        } else {
          RunGoalStep(host, req, Snapshot(), rest, wire, goal);
          mvState := RecvPackets(Head(rest));
          rest := Tail(rest);
        }
      }
      RunGoalEnd(host, req, Snapshot(), rest, wire, goal);
    }
  }
}
