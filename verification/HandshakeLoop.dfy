/**
 * Why the handshake comes with no promise of progress: after one lost answer two loss-free steps can repeat for ever,
 * and nothing but a complaint of the child breaks the circle.
 */
module HandshakeLoop {
  import opened Packets
  import opened Transfers
  import opened Ordered
  import H = Handshake
  import N = Network
  import S = ServerSpec
  import C = ClientSpec

  function ServerGets(p: Packet): Action {
    ServerActs(S.Turn(Arrive(p), S.NoFault))
  }

  function ClientGets(p: Packet): Action {
    ClientActs(C.Turn(Arrive(p), C.All, true, true))
  }

  // ----- runs with a given number of losses

  function Losses(acts: seq<Action>): nat {
    if acts == [] then 0 else (if acts[0].DropToClient? || acts[0].DropToServer? then 1 else 0) + Losses(acts[1..])
  }

  /** A run leads there in which `n` packets are lost. */
  ghost predicate ReachesLosing(j: Job, o: Pair, o': Pair, n: nat) {
    exists acts :: Runs(j, o, acts, o') && Losses(acts) == n
  }

  lemma {:induction false} RunsSnoc(j: Job, o: Pair, acts: seq<Action>, mid: Pair, a: Action)
    requires Runs(j, o, acts, mid) && Enabled(j, mid, a)
    ensures Runs(j, o, acts + [a], Step(j, mid, a))
    ensures Losses(acts + [a]) == Losses(acts) + Losses([a])
    decreases |acts|
  {
    hide Step, Enabled;
    if acts == [] {
      assert acts + [a] == [a] && [a][1..] == [];
    } else {
      RunsSnoc(j, Step(j, o, acts[0]), acts[1..], mid, a);
      assert (acts + [a])[0] == acts[0] && (acts + [a])[1..] == acts[1..] + [a];
    }
  }

  lemma LosingStart(j: Job, o: Pair)
    ensures ReachesLosing(j, o, o, 0)
  {
    assert Runs(j, o, [], o) && Losses([]) == 0;
  }

  lemma LosingStep(j: Job, o: Pair, mid: Pair, n: nat, a: Action)
    requires ReachesLosing(j, o, mid, n) && Enabled(j, mid, a)
    ensures ReachesLosing(j, o, Step(j, mid, a), n + Losses([a]))
    ensures Losses([a]) == if a.DropToClient? || a.DropToServer? then 1 else 0
  {
    hide Step, Enabled;
    var acts :| Runs(j, o, acts, mid) && Losses(acts) == n;
    RunsSnoc(j, o, acts, mid, a);
    assert [a][1..] == [];
  }

  // ----- the moves of a handshake

  /** Both sides are in their handshakes: the client has sent packet `i`, the child waits for packet `q`. */
  predicate At(j: Job, o: Pair, i: nat, q: nat) {
    && i < C.INIT_PACKETS
    && o.client == C.Constructed().(index := i, retries := o.client.retries) && o.client.retries > 0
    && o.server.mode == S.INIT && o.server.retries > 0
    && o.server.sequence == q && H.Agreed(j, o.server)
  }

  /** The client takes the answer at the head of its queue and sends the packet it asks for. */
  lemma ClientTakes(j: Job, o0: Pair, n: nat, o: Pair, i: nat, q: nat) returns (o1: Pair)
    requires ReachesLosing(j, o0, o, n) && At(j, o, i, q)
    requires o.toClient != [] && N.Control(j, o.toClient[0]) && C.NextIndex(i, o.toClient[0]) < C.INIT_PACKETS
    ensures ReachesLosing(j, o0, o1, n)
    ensures var i1 := C.NextIndex(i, o.toClient[0]);
      && At(j, o1, i1, q) && o1.server == o.server && o1.client.retries == PKT_TRNSMAX
      && o1.toClient == o.toClient[1..] && o1.toServer == o.toServer + [C.InitPkt(j.inCksum, j.req, i1)]
  {
    var p := o.toClient[0];
    ControlFields(j.inCksum, p.sequence);
    hide C.InitPkt, RrPkt, RejPkt, H.Agreed, ReachesLosing;
    o1 := Step(j, o, ClientGets(p));
    LosingStep(j, o0, o, n, ClientGets(p));
    assert o.toClient[..0] + o.toClient[1..] == o.toClient[1..];
  }

  /** The client times out and sends its packet again. */
  lemma ClientRepeats(j: Job, o0: Pair, n: nat, o: Pair, i: nat, q: nat) returns (o1: Pair)
    requires ReachesLosing(j, o0, o, n) && At(j, o, i, q) && o.client.retries >= 2
    ensures ReachesLosing(j, o0, o1, n)
    ensures At(j, o1, i, q) && o1.server == o.server
    ensures o1.toClient == o.toClient && o1.toServer == o.toServer + [C.InitPkt(j.inCksum, j.req, i)]
  {
    hide C.InitPkt, H.Agreed, ReachesLosing;
    o1 := Step(j, o, ClientActs(C.SILENCE));
    LosingStep(j, o0, o, n, ClientActs(C.SILENCE));
  }

  /** The child takes packet `k` from the head of its queue, which does not complete its handshake. */
  lemma ChildTakes(j: Job, o0: Pair, n: nat, o: Pair, i: nat, q: nat, k: nat) returns (o1: Pair)
    requires ReachesLosing(j, o0, o, n) && At(j, o, i, q)
    requires k < 4 && o.toServer != [] && o.toServer[0] == C.InitPkt(j.inCksum, j.req, k)
    ensures ReachesLosing(j, o0, o1, n)
    ensures At(j, o1, i, if k == q then q + 1 else q) && o1.client == o.client
    ensures k <= q ==> o1.server.retries == PKT_TRNSMAX
    ensures o1.toServer == o.toServer[1..]
    ensures o1.toClient == o.toClient + [if k <= q then RrPkt(j.inCksum, q) else RejPkt(j.inCksum, q)]
  {
    var p := o.toServer[0];
    H.InitPktFields(j, k);
    if k == q {
      H.IntakeAgrees(j, o.server.(retries := PKT_TRNSMAX));
    }
    hide C.InitPkt, RrPkt, RejPkt, S.Intake, ReachesLosing;
    o1 := Step(j, o, ServerGets(p));
    LosingStep(j, o0, o, n, ServerGets(p));
    assert o.toServer[..0] + o.toServer[1..] == o.toServer[1..];
  }

  /** The packet at the head of the client's queue is lost. */
  lemma AnswerLost(j: Job, o0: Pair, n: nat, o: Pair) returns (o1: Pair)
    requires ReachesLosing(j, o0, o, n) && o.toClient != []
    ensures ReachesLosing(j, o0, o1, n + 1) && o1 == o.(toClient := o.toClient[1..])
  {
    hide ReachesLosing;
    o1 := Step(j, o, DropToClient(0));
    LosingStep(j, o0, o, n, DropToClient(0));
    assert o.toClient[..0] + o.toClient[1..] == o.toClient[1..];
  }

  /** Every handshake goes back once: the child, which still waits for packet 1, has rejected packet 2. */
  lemma GoesBack(j: Job, o0: Pair) returns (o: Pair)
    requires ForkStart(j, o0)
    ensures ReachesLosing(j, o0, o, 0) && At(j, o, 1, 2) && o.client.retries == PKT_TRNSMAX
    ensures o.toClient == [RrPkt(j.inCksum, 1)] && o.toServer == []
  {
    ControlFields(j.inCksum, 1);
    hide C.InitPkt, RrPkt, RejPkt, ReachesLosing;
    LosingStart(j, o0);
    var o1 := ClientTakes(j, o0, 0, o0, 1, 1);
    assert o1.toClient == [] && o1.toServer == [C.InitPkt(j.inCksum, j.req, 2)];
    var o2 := ChildTakes(j, o0, 0, o1, 2, 1, 2);
    assert o2.toClient == [RejPkt(j.inCksum, 1)] && o2.toServer == [];
    var o3 := ClientTakes(j, o0, 0, o2, 2, 1);
    assert o3.toClient == [] && o3.toServer == [C.InitPkt(j.inCksum, j.req, 1)];
    o := ChildTakes(j, o0, 0, o3, 1, 1, 1);
    assert o.toClient == [RrPkt(j.inCksum, 1)] && o.toServer == [];
  }

  // ----- the stall

  /** The child waits for packet `q` while the client sends packet `i`, which the child has had, again. */
  predicate Stalled(j: Job, o: Pair, i: nat, q: uint32) {
    && i < C.INIT_PACKETS && i < q
    && o.client == C.Constructed().(index := i)
    && o.server.mode == S.INIT && o.server.sequence == q && o.server.retries == PKT_TRNSMAX
    && o.server.flags != S.Flags(true, true, true)
    && o.toServer == [C.InitPkt(j.inCksum, j.req, i)] && o.toClient == []
  }

  /** Packet `i` is answered with RR(q), which the client answers with packet `i`: the same state again. */
  lemma StalledRepeats(j: Job, o: Pair, i: nat, q: uint32)
    requires Stalled(j, o, i, q)
    ensures Runs(j, o, [ServerGets(C.InitPkt(j.inCksum, j.req, i)), ClientGets(RrPkt(j.inCksum, q))], o)
  {
    var p, r := C.InitPkt(j.inCksum, j.req, i), RrPkt(j.inCksum, q);
    H.InitPktFields(j, i);
    ControlFields(j.inCksum, q);
    hide C.InitPkt, RrPkt, S.Intake;
    var o1 := Step(j, o, ServerGets(p));
    assert o1 == o.(toClient := [r], toServer := []);
    assert Step(j, o1, ClientGets(r)) == o;
    assert Runs(j, o, [], o) && Enabled(j, o, ServerGets(p)) && Enabled(j, o1, ClientGets(r));
    hide Step, Enabled, Runs;
    RunsSnoc(j, o, [], o, ServerGets(p));
    RunsSnoc(j, o, [ServerGets(p)], o1, ClientGets(r));
    assert [ServerGets(p)] + [ClientGets(r)] == [ServerGets(p), ClientGets(r)];
  }

  /** From every fork, losing a single answer to packet 1 leads to the stall. */
  lemma LossStalls(j: Job, o0: Pair) returns (o: Pair)
    requires ForkStart(j, o0)
    ensures ReachesLosing(j, o0, o, 1) && Stalled(j, o, 1, 2)
  {
    ControlFields(j.inCksum, 2);
    hide C.InitPkt, RrPkt, RejPkt, ReachesLosing;
    var o1 := GoesBack(j, o0);
    var o2 := AnswerLost(j, o0, 0, o1);
    var o3 := ClientRepeats(j, o0, 1, o2, 1, 2);
    assert o3.toClient == [] && o3.toServer == [C.InitPkt(j.inCksum, j.req, 1)];
    var o4 := ChildTakes(j, o0, 1, o3, 1, 2, 1);
    assert o4.toClient == [RrPkt(j.inCksum, 2)] && o4.toServer == [];
    o := ClientTakes(j, o0, 1, o4, 1, 2);
    assert o.toClient == [] && o.toServer == [C.InitPkt(j.inCksum, j.req, 1)];
  }

  /**
   * No progress: from every fork a run with one loss leads to a state from which packets can be delivered for ever,
   * none lost and nobody timing out, without either side moving on.
   */
  lemma HandshakeCanLoop(j: Job, o0: Pair) returns (o: Pair, acts: seq<Action>)
    requires ForkStart(j, o0)
    ensures ReachesLosing(j, o0, o, 1) && o.client.mode == C.INIT && o.server.mode == S.INIT
    ensures |acts| == 2
    ensures acts[0].ServerActs? && acts[0].s.event.Arrive? && acts[1].ClientActs? && acts[1].c.event.Arrive?
    ensures Runs(j, o, acts, o)
  {
    o := LossStalls(j, o0);
    StalledRepeats(j, o, 1, 2);
    acts := [ServerGets(C.InitPkt(j.inCksum, j.req, 1)), ClientGets(RrPkt(j.inCksum, 2))];
  }

  // ----- what ends it

  /** The child hears nothing for a second, or something corrupt, and sends a REJ. */
  predicate Complaint(j: Job, a: Action) {
    a.ServerActs? && (a.s.event.Timeout? || (a.s.event.Arrive? && !Intact(j.inCksum, a.s.event.p)))
  }

  function Complaints(j: Job, acts: seq<Action>): nat {
    if acts == [] then 0 else (if Complaint(j, acts[0]) then 1 else 0) + Complaints(j, acts[1..])
  }

  /** One side is past the stall, and has not stopped with an error. */
  predicate MovedOn(o: Pair, i: nat, q: nat) {
    || (o.client.mode != C.ERROR && (o.client.mode != C.INIT || o.client.index != i))
    || (o.server.mode != S.ERROR && (o.server.mode != S.INIT || o.server.sequence != q))
  }

  /** Neither side moves on, and nothing is in flight but packet `i` and RR(q). */
  predicate Held(j: Job, o: Pair, i: nat, q: uint32)
    requires i < C.INIT_PACKETS
  {
    && !MovedOn(o, i, q)
    && (o.server.mode == S.INIT ==> o.server.flags != S.Flags(true, true, true))
    && (forall p :: p in o.toClient ==> p == RrPkt(j.inCksum, q))
    && (forall p :: p in o.toServer ==> p == C.InitPkt(j.inCksum, j.req, i))
  }

  lemma WithoutIn(queue: seq<Packet>, i: nat)
    ensures forall p :: p in Without(queue, i) ==> p in queue
  {
  }

  lemma ClientKeepsHeld(j: Job, o: Pair, i: nat, q: uint32, turn: C.Turn)
    requires i < C.INIT_PACKETS && i < q && Held(j, o, i, q) && Enabled(j, o, ClientActs(turn))
    ensures Held(j, Step(j, o, ClientActs(turn)), i, q)
  {
    ControlFields(j.inCksum, q);
    WithoutIn(o.toClient, 0);
    hide C.InitPkt, RrPkt, RejPkt, S.Step, Without;
    assert o.toClient != [] ==> o.toClient[0] in o.toClient;
    var sent := C.Step(j.ClientHost(), j.req, o.client, turn).1;
    assert forall p :: p in sent ==> p == C.InitPkt(j.inCksum, j.req, i);
  }

  lemma ServerKeepsHeld(j: Job, o: Pair, i: nat, q: uint32, turn: S.Turn)
    requires i < C.INIT_PACKETS && i < q && Held(j, o, i, q) && Enabled(j, o, ServerActs(turn))
    requires !Complaint(j, ServerActs(turn))
    ensures Held(j, Step(j, o, ServerActs(turn)), i, q)
  {
    H.InitPktFields(j, i);
    WithoutIn(o.toServer, 0);
    hide C.InitPkt, RrPkt, RejPkt, S.Intake, C.Step, Without;
    assert o.toServer != [] ==> o.toServer[0] in o.toServer;
    var sent := S.Step(j.ServerHost(), o.server, turn).1;
    assert o.server.mode == S.INIT;
    assert forall p :: p in sent ==> p == RrPkt(j.inCksum, q);
  }

  /** No loss, delay or corruption on the way to the client moves a side on, nor does the client's timeout. */
  lemma StepKeepsHeld(j: Job, o: Pair, i: nat, q: uint32, a: Action)
    requires i < C.INIT_PACKETS && i < q && Held(j, o, i, q) && Enabled(j, o, a) && !Complaint(j, a)
    ensures Held(j, Step(j, o, a), i, q)
  {
    match a {
      case ServerActs(turn) => ServerKeepsHeld(j, o, i, q, turn);
      case ClientActs(turn) => ClientKeepsHeld(j, o, i, q, turn);
      case _ =>
        WithoutIn(o.toClient, a.i);
        WithoutIn(o.toServer, a.i);
        hide C.InitPkt, RrPkt, Without;
    }
  }

  lemma {:induction false} RunKeepsHeld(j: Job, o: Pair, i: nat, q: uint32, acts: seq<Action>, o': Pair)
    requires i < C.INIT_PACKETS && i < q && Held(j, o, i, q) && Runs(j, o, acts, o') && Complaints(j, acts) == 0
    ensures Held(j, o', i, q)
    decreases |acts|
  {
    hide Held, Step, Enabled, Complaint;
    if acts != [] {
      StepKeepsHeld(j, o, i, q, acts[0]);
      RunKeepsHeld(j, Step(j, o, acts[0]), i, q, acts[1..], o');
    }
  }

  /** The child's REJ(q), numbered above the client's index, makes the client go on. */
  lemma ComplaintHelps(j: Job, o: Pair, i: nat, q: uint32) returns (acts: seq<Action>, o': Pair)
    requires Stalled(j, o, i, q)
    ensures Runs(j, o, acts, o') && Complaints(j, acts) == 1 && Losses(acts) == 0
    ensures o'.client.mode == if i + 1 < C.INIT_PACKETS then C.INIT else C.RECV_PACKETS
    ensures o'.client.mode == C.INIT ==> o'.client.index == i + 1
    ensures MovedOn(o', i, q)
  {
    var r := RejPkt(j.inCksum, q);
    ControlFields(j.inCksum, q);
    hide C.InitPkt, RejPkt;
    var a, b := ServerActs(S.SILENCE), ClientGets(r);
    var o1 := Step(j, o, a);
    assert o1 == o.(server := o.server.(retries := PKT_TRNSMAX - 1), toClient := [r]);
    o' := Step(j, o1, b);
    assert Enabled(j, o, a) && Enabled(j, o1, b) && Runs(j, o, [], o);
    assert o'.client == C.InitSend(j.ClientHost(), j.req, o.client, i + 1, true).0;
    assert Complaint(j, a) && !Complaint(j, b);
    acts := [a, b];
    hide Step, Enabled, Complaint;
    RunsSnoc(j, o, [], o, a);
    RunsSnoc(j, o, [a], o1, b);
    assert [] + [a] == [a] && [a] + [b] == acts;
    assert acts[1..] == [b] && [b][1..] == [];
    assert Complaints(j, [b]) == 0 && Losses([b]) == 0;
  }

  /**
   * What ends a stall: a run from it in which the child complains at most `k` times can move one of the sides on if and
   * only if k >= 1. Losses, timeouts of the client, failing calls and corruption on the client's side do not matter.
   */
  lemma StallEndsExactly(j: Job, o: Pair, i: nat, q: uint32, k: nat)
    requires Stalled(j, o, i, q)
    ensures (exists acts, o' :: Runs(j, o, acts, o') && Complaints(j, acts) <= k && MovedOn(o', i, q)) <==> k >= 1
  {
    if k >= 1 {
      var acts, o' := ComplaintHelps(j, o, i, q);
    } else {
      forall acts, o' | Runs(j, o, acts, o') && Complaints(j, acts) <= k
        ensures !MovedOn(o', i, q)
      {
        RunKeepsHeld(j, o, i, q, acts, o');
      }
    }
  }
}
