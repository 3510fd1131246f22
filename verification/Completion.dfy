/**
 * Which transfers can still be completed over ordered channels: an exact condition on the state, from the fork on. A
 * handshake has two ways to die, and both can happen.
 */
module Completion {
  import opened Packets
  import Chunks
  import opened Transfers
  import opened Ordered
  import opened HandshakeLoop
  import opened OrderedRecovery
  import N = Network
  import H = Handshake
  import E = EndToEnd
  import S = ServerSpec
  import C = ClientSpec

  // ----- the condition

  /** Some of these packets, taken in order, bring a client that has sent packet `i` past its handshake. */
  predicate Passes(i: nat, ps: seq<Packet>)
    decreases |ps|
  {
    i >= C.INIT_PACKETS || (ps != [] && (Passes(C.NextIndex(i, ps[0]), ps[1..]) || Passes(i, ps[1..])))
  }

  /** What a server left alone sends before it waits. */
  function Pending(j: Job, s: S.Server): seq<Packet> {
    match s.mode
    case FILL_WINDOW => S.Fill(j.ServerHost(), s, S.NoFault).outBuf
    case SEND_WINDOW => s.outBuf
    case _ => []
  }

  /**
   * While the child is in `init`, the client must be in its handshake too or have packet 4 on its way; after that the
   * client must be receiving, or be brought to it by what is or will be on its way.
   */
  predicate Completable(j: Job, o: Pair) {
    if o.server.mode == S.INIT then o.client.mode == C.INIT || C.InitPkt(j.inCksum, j.req, 4) in o.toServer
    else o.client.mode == C.RECV_PACKETS || Passes(o.client.index, o.toClient + Pending(j, o.server))
  }

  /** Neither side has stopped, and the client outlives one more timeout. */
  predicate Willing(o: Pair) {
    && (o.client.mode == C.INIT || o.client.mode == C.RECV_PACKETS) && o.client.retries >= 2
    && (o.server.mode == S.INIT || S.Active(o.server)) && o.server.retries >= 1
  }

  lemma {:induction false} PassesMore(i: nat, ps: seq<Packet>, qs: seq<Packet>)
    requires Passes(i, ps)
    ensures Passes(i, ps + qs)
    decreases |ps|
  {
    if i < C.INIT_PACKETS {
      assert (ps + qs)[0] == ps[0] && (ps + qs)[1..] == ps[1..] + qs;
      if Passes(C.NextIndex(i, ps[0]), ps[1..]) {
        PassesMore(C.NextIndex(i, ps[0]), ps[1..], qs);
      } else {
        PassesMore(i, ps[1..], qs);
      }
    }
  }

  lemma PassesLonger(i: nat, ps: seq<Packet>, qs: seq<Packet>)
    requires ps <= qs
    ensures Passes(i, ps) ==> Passes(i, qs)
  {
    assert ps + qs[|ps|..] == qs;
    if Passes(i, ps) {
      PassesMore(i, ps, qs[|ps|..]);
    }
  }

  lemma {:induction false} PassesWithout(i: nat, ps: seq<Packet>, k: nat)
    requires Passes(i, Without(ps, k))
    ensures Passes(i, ps)
    decreases |ps|
  {
    if i < C.INIT_PACKETS && k < |ps| {
      var qs := Without(ps, k);
      if k == 0 {
        assert qs == ps[1..];
      } else {
        assert qs[0] == ps[0] && qs[1..] == Without(ps[1..], k - 1);
        if Passes(C.NextIndex(i, qs[0]), qs[1..]) {
          PassesWithout(C.NextIndex(i, qs[0]), ps[1..], k - 1);
        } else {
          PassesWithout(i, ps[1..], k - 1);
        }
      }
    }
  }

  // ----- more moves

  lemma RunKeepsReach(j: Job, o: Pair, o': Pair, n: nat)
    requires j.Valid() && WholeInv(j, o) && ReachesLosing(j, o, o', n)
    ensures WholeInv(j, o') && Reaches(j, o, o')
  {
    var acts :| Runs(j, o, acts, o') && Losses(acts) == n;
    RunKeepsWholeInv(j, o, acts, o');
    hide WholeInv;
  }

  /** The child takes packet 4 and is ready to read the file. */
  lemma ChildFinishes(j: Job, o0: Pair, n: nat, o: Pair) returns (o1: Pair)
    requires j.Valid() && ReachesLosing(j, o0, o, n)
    requires o.server.mode == S.INIT && o.server.retries > 0 && o.server.sequence == 4 && H.Agreed(j, o.server)
    requires o.toServer != [] && o.toServer[0] == C.InitPkt(j.inCksum, j.req, 4)
    ensures ReachesLosing(j, o0, o1, n)
    ensures o1.server.mode == S.FILL_WINDOW && o1.server.retries == PKT_TRNSMAX && o1.client == o.client
    ensures o1.toServer == o.toServer[1..] && o1.toClient == o.toClient + [RrPkt(j.inCksum, 4)]
  {
    var p := o.toServer[0];
    E.ValidNameFits(j);
    H.InitPktFields(j, 4);
    H.IntakeAgrees(j, o.server.(retries := PKT_TRNSMAX));
    assert j.req.fromName in j.files;
    hide C.InitPkt, RrPkt, RejPkt, S.Intake, ReachesLosing, Job.Valid, H.Agreed;
    o1 := Step(j, o, ServerGets(p));
    LosingStep(j, o0, o, n, ServerGets(p));
    assert o.toServer[..0] + o.toServer[1..] == o.toServer[1..];
  }

  /** The client takes the packet at the head of its queue; that may be the last of its handshake. */
  lemma ClientHears(j: Job, o0: Pair, n: nat, o: Pair) returns (o1: Pair)
    requires ReachesLosing(j, o0, o, n)
    requires o.client.mode == C.INIT && o.client.retries > 0 && o.toClient != [] && Intact(j.inCksum, o.toClient[0])
    ensures ReachesLosing(j, o0, o1, n) && o1.server == o.server && o1.toClient == o.toClient[1..]
    ensures o1.client.retries == PKT_TRNSMAX
    ensures var i1 := C.NextIndex(o.client.index, o.toClient[0]);
      if i1 < C.INIT_PACKETS then o1.client.mode == C.INIT && o1.client.index == i1
      else o1.client.mode == C.RECV_PACKETS && o1.toServer == o.toServer
  {
    var p := o.toClient[0];
    hide C.InitPkt, ReachesLosing, Intact;
    assert Receive(j.inCksum, o.client.retries, Arrive(p)) == (PKT_TRNSMAX, Got(p));
    o1 := Step(j, o, ClientGets(p));
    LosingStep(j, o0, o, n, ClientGets(p));
    assert o.toClient[..0] + o.toClient[1..] == o.toClient[1..];
    assert o.toServer + [] == o.toServer;
  }

  /** The child times out and sends a REJ. */
  lemma ChildComplains(j: Job, o0: Pair, n: nat, o: Pair, i: nat, q: uint32) returns (o1: Pair)
    requires ReachesLosing(j, o0, o, n) && At(j, o, i, q) && o.server.retries >= 2
    ensures ReachesLosing(j, o0, o1, n) && At(j, o1, i, q) && o1.client == o.client
    ensures o1.toServer == o.toServer && o1.toClient == o.toClient + [RejPkt(j.inCksum, q)]
  {
    hide RejPkt, ReachesLosing;
    o1 := Step(j, o, ServerActs(S.SILENCE));
    LosingStep(j, o0, o, n, ServerActs(S.SILENCE));
  }

  // ----- a handshake that both sides are in can be completed

  /** The child's REJs bring the client to the packet the child waits for. */
  lemma {:induction false} Synchronise(j: Job, o0: Pair, n: nat, o: Pair, i: nat, q: uint32) returns (o1: Pair, n1: nat)
    requires ReachesLosing(j, o0, o, n) && At(j, o, i, q) && o.server.retries >= 2
    requires o.toClient == [] && o.toServer == []
    ensures ReachesLosing(j, o0, o1, n1) && At(j, o1, q, q)
    ensures o1.toClient == [] && o1.toServer == [C.InitPkt(j.inCksum, j.req, q)]
    decreases if i < q then q - i else 0
  {
    ControlFields(j.inCksum, q);
    assert 1 <= q <= 4;
    hide C.InitPkt, RrPkt, RejPkt, ReachesLosing, H.Agreed;
    var o2 := ChildComplains(j, o0, n, o, i, q);
    assert o2.toClient == [RejPkt(j.inCksum, q)];
    var o3 := ClientTakes(j, o0, n, o2, i, q);
    o1, n1 := o3, n;
    assert o3.toClient == [];
    if i + 1 < q {
      assert o3.toServer == [C.InitPkt(j.inCksum, j.req, i + 1)];
      var o4 := ChildTakes(j, o0, n, o3, i + 1, q, i + 1);
      assert o4.toServer == [] && |o4.toClient| == 1;
      var o5 := AnswerLost(j, o0, n, o4);
      o1, n1 := Synchronise(j, o0, n + 1, o5, i + 1, q);
    }
  }

  /** From there packet after packet is taken and answered. */
  lemma {:induction false} Climb(j: Job, o0: Pair, n: nat, o: Pair, q: uint32) returns (o1: Pair)
    requires j.Valid() && ReachesLosing(j, o0, o, n) && At(j, o, q, q)
    requires o.toClient == [] && o.toServer == [C.InitPkt(j.inCksum, j.req, q)]
    ensures ReachesLosing(j, o0, o1, n)
    ensures o1.server.mode == S.FILL_WINDOW && o1.server.retries == PKT_TRNSMAX
    ensures o1.client.mode == C.INIT && o1.client.index == 4 && o1.client.retries > 0
    ensures if q == 4 then o1.client == o.client else o1.client.retries == PKT_TRNSMAX
    ensures o1.toClient == [RrPkt(j.inCksum, 4)]
    decreases 4 - q
  {
    ControlFields(j.inCksum, q);
    assert 1 <= q <= 4;
    if q == 4 {
      o1 := ChildFinishes(j, o0, n, o);
    } else {
      hide C.InitPkt, RrPkt, RejPkt, ReachesLosing, H.Agreed, Job.Valid;
      var o2 := ChildTakes(j, o0, n, o, q, q, q);
      assert o2.toServer == [] && o2.toClient == [RrPkt(j.inCksum, q)];
      var o3 := ClientTakes(j, o0, n, o2, q, q + 1);
      assert o3.toClient == [] && o3.toServer == [C.InitPkt(j.inCksum, j.req, q + 1)];
      o1 := Climb(j, o0, n, o3, q + 1);
    }
  }

  /** The client's timeout leaves the child with patience, and the two at the same packet. */
  lemma Meets(j: Job, o0: Pair, n: nat, o: Pair, i: nat, q: uint32) returns (o1: Pair, n1: nat)
    requires ReachesLosing(j, o0, o, n) && At(j, o, i, q) && o.client.retries >= 2
    ensures ReachesLosing(j, o0, o1, n1) && At(j, o1, q, q)
    ensures o1.toClient == [] && o1.toServer == [C.InitPkt(j.inCksum, j.req, q)]
  {
    assert 1 <= q <= 4;
    hide C.InitPkt, RrPkt, RejPkt, ReachesLosing, H.Agreed;
    var o2, n2 := AllLost(j, o0, n, o);
    var o3 := ClientRepeats(j, o0, n2, o2, i, q);
    o1, n1 := o3, n2;
    assert o3.toClient == [] && o3.toServer == [C.InitPkt(j.inCksum, j.req, i)];
    if i != q {
      var o4 := Discards(j, o0, n2, o3, i, q);
      var o5, n5 := AllLost(j, o0, n2, o4);
      o1, n1 := Synchronise(j, o0, n5, o5, i, q);
    }
  }

  /** A packet the child does not wait for costs it no more than one retry of ten. */
  lemma Discards(j: Job, o0: Pair, n: nat, o: Pair, i: nat, q: uint32) returns (o1: Pair)
    requires ReachesLosing(j, o0, o, n) && At(j, o, i, q) && i != q
    requires o.toServer == [C.InitPkt(j.inCksum, j.req, i)]
    ensures ReachesLosing(j, o0, o1, n) && At(j, o1, i, q) && o1.server.retries >= 2
  {
    H.InitPktFields(j, i);
    hide C.InitPkt, RrPkt, RejPkt, S.Intake, ReachesLosing;
    o1 := Step(j, o, ServerGets(o.toServer[0]));
    LosingStep(j, o0, o, n, ServerGets(o.toServer[0]));
  }

  lemma HandshakeAt(j: Job, o: Pair)
    requires WholeInv(j, o) && o.server.mode == S.INIT
    ensures H.Agreed(j, o.server) && o.server.retries > 0
    ensures o.client.mode == C.INIT && o.client.retries > 0 ==> At(j, o, o.client.index, o.server.sequence)
    ensures o.client.mode == C.RECV_PACKETS ==> o.server.sequence == 4
  {
  }

  /** Both sides get to the data phase. */
  lemma HandshakeCompletes(j: Job, o: Pair) returns (o1: Pair, n1: nat)
    requires j.Valid() && WholeInv(j, o) && Willing(o) && o.server.mode == S.INIT && o.client.mode == C.INIT
    ensures ReachesLosing(j, o, o1, n1) && Patient(o1)
  {
    HandshakeAt(j, o);
    LosingStart(j, o);
    ControlFields(j.inCksum, 4);
    hide WholeInv, ReachesLosing, At, RrPkt, Job.Valid;
    var o2, n2 := Meets(j, o, 0, o, o.client.index, o.server.sequence);
    var o3 := Climb(j, o, n2, o2, o.server.sequence);
    o1 := ClientHears(j, o, n2, o3);
    n1 := n2;
  }

  // ----- a client that is past its handshake, and one that the child has left behind

  /** Packet 4 is still on its way to the child. */
  lemma LateChildCompletes(j: Job, o: Pair) returns (o1: Pair, n1: nat)
    requires j.Valid() && WholeInv(j, o) && Willing(o) && o.server.mode == S.INIT && o.client.mode == C.RECV_PACKETS
    requires C.InitPkt(j.inCksum, j.req, 4) in o.toServer
    ensures ReachesLosing(j, o, o1, n1) && Patient(o1)
  {
    HandshakeAt(j, o);
    LosingStart(j, o);
    hide WholeInv, ReachesLosing, At, RrPkt, Job.Valid, H.Agreed, C.InitPkt;
    var k :| 0 <= k < |o.toServer| && o.toServer[k] == C.InitPkt(j.inCksum, j.req, 4);
    var o2, n2 := RequestsLost(j, o, 0, o, k);
    o1 := ChildFinishes(j, o, n2, o2);
    n1 := n2;
  }

  lemma {:induction false} Walks(j: Job, o0: Pair, n: nat, o: Pair) returns (o1: Pair, n1: nat)
    requires ReachesLosing(j, o0, o, n) && o.client.mode == C.INIT && o.client.index < C.INIT_PACKETS
    requires o.client.retries > 0 && Passes(o.client.index, o.toClient)
    requires forall p :: p in o.toClient ==> Intact(j.inCksum, p)
    ensures ReachesLosing(j, o0, o1, n1) && o1.server == o.server
    ensures o1.client.mode == C.RECV_PACKETS && o1.client.retries == PKT_TRNSMAX
    decreases |o.toClient|
  {
    hide ReachesLosing, Intact;
    var i1 := C.NextIndex(o.client.index, o.toClient[0]);
    if Passes(i1, o.toClient[1..]) {
      o1 := ClientHears(j, o0, n, o);
      n1 := n;
      if i1 < C.INIT_PACKETS {
        o1, n1 := Walks(j, o0, n, o1);
      }
    } else {
      o1 := AnswerLost(j, o0, n, o);
      o1, n1 := Walks(j, o0, n + 1, o1);
    }
  }

  lemma DownIntact(j: Job, o: Pair)
    requires j.Valid() && DataInv(j, o)
    ensures forall p :: p in o.toClient ==> Intact(j.inCksum, p)
  {
    forall p | p in o.toClient
      ensures Intact(j.inCksum, p)
    {
      assert Sent(j, p);
      ControlFields(j.inCksum, p.sequence);
      DatFields(j, p.sequence);
      hide RrPkt, RejPkt, Dat, Intact;
    }
  }

  /** The child is in the data phase; what is on its way, or will be, brings the client there. */
  lemma LateClientCompletes(j: Job, o: Pair) returns (o1: Pair, n1: nat)
    requires j.Valid() && DataInv(j, o) && Willing(o) && o.client.mode == C.INIT && o.client.index < C.INIT_PACKETS
    requires Passes(o.client.index, o.toClient + Pending(j, o.server))
    ensures ReachesLosing(j, o, o1, n1) && Patient(o1)
  {
    LosingStart(j, o);
    hide ReachesLosing, Job.Valid, DataInv, S.Fill, Intact, Step;
    var o2 := o;
    if o.server.mode == S.FILL_WINDOW {
      o2 := FillsAndSends(j, o, 0, o);
    } else if o.server.mode == S.SEND_WINDOW {
      o2 := Sends(j, o, 0, o);
    }
    assert o.toClient + [] == o.toClient;
    DataInvActive(j, o);
    DownIntact(j, o2);
    o1, n1 := Walks(j, o, 0, o2);
  }

  lemma DataInvActive(j: Job, o: Pair)
    requires DataInv(j, o) && Willing(o)
    ensures S.Active(o.server)
  {
  }

  // ----- what cannot be completed stays so

  /** A client in its handshake has sent no answer. */
  predicate Wordless(o: Pair) {
    o.client.mode == C.INIT ==>
      o.client.index < C.INIT_PACKETS
      && forall p :: p in o.toServer ==> p.typ != PKT_TYPE_RR && p.typ != PKT_TYPE_REJ
  }

  lemma StepKeepsWordless(j: Job, o: Pair, a: Action)
    requires Wordless(o) && Enabled(j, o, a)
    ensures Wordless(Step(j, o, a))
  {
    WithoutIn(o.toServer, 0);
    if a.DropToServer? {
      WithoutIn(o.toServer, a.i);
    }
    if a.ClientActs? {
      InitTypes(j, o.client, a.c);
    }
    hide C.Step, S.Step, Without;
  }

  lemma InitTypes(j: Job, c: C.Client, turn: C.Turn)
    requires C.Live(c)
    ensures var (c1, sent) := C.Step(j.ClientHost(), j.req, c, turn);
      c1.mode == C.INIT ==>
        c.mode == C.INIT && c1.index < C.INIT_PACKETS
        && forall p :: p in sent ==> p.typ != PKT_TYPE_RR && p.typ != PKT_TYPE_REJ
  {
    forall i: nat | i < C.INIT_PACKETS {
      H.InitPktFields(j, i);
    }
    hide C.InitPkt, RrPkt, RejPkt, Intact;
  }

  lemma {:induction false} RunKeepsWordless(j: Job, o: Pair, acts: seq<Action>, o': Pair)
    requires Wordless(o) && Runs(j, o, acts, o')
    ensures Wordless(o')
    decreases |acts|
  {
    hide Wordless, Step, Enabled;
    if acts != [] {
      StepKeepsWordless(j, o, acts[0]);
      RunKeepsWordless(j, Step(j, o, acts[0]), acts[1..], o');
    }
  }

  /** The client is past its handshake, and the child waits for a packet 4 that is not on its way. */
  predicate Late(j: Job, o: Pair) {
    && (o.client.mode == C.RECV_PACKETS || o.client.mode == C.ERROR) && o.client.sequence == 0 && o.client.output == []
    && (o.server.mode == S.ERROR || (o.server.mode == S.INIT && o.server.sequence == 4 && !o.server.flags.fnSet))
    && (forall p :: p in o.toServer ==> H.RequestOk(j, 5, p) && p != C.InitPkt(j.inCksum, j.req, 4))
    && (forall p :: p in o.toClient ==> N.Control(j, p) && p.sequence >= 1)
  }

  /** A child that waits for packet 4 and hears something older answers, and waits on. */
  lemma WaitsForName(j: Job, s: S.Server, turn: S.Turn)
    requires s.mode == S.INIT && s.sequence == 4 && !s.flags.fnSet && s.retries > 0
    requires turn.event.Arrive? && Intact(j.inCksum, turn.event.p) ==> turn.event.p.sequence < 4
    ensures var (s1, sent) := S.InitStep(j.ServerHost(), s, turn);
      && (s1.mode == S.ERROR || (s1.mode == S.INIT && s1.sequence == 4 && !s1.flags.fnSet))
      && forall p :: p in sent ==> p == RrPkt(j.inCksum, 4) || p == RejPkt(j.inCksum, 4)
  {
    hide RrPkt, RejPkt, S.Intake, Intact;
  }

  lemma OlderThanName(j: Job, p: Packet)
    requires H.RequestOk(j, 5, p) && p != C.InitPkt(j.inCksum, j.req, 4)
    ensures p.sequence < 4
  {
    ControlFields(j.inCksum, 0);
    hide C.InitPkt, RejPkt;
  }

  lemma ServerKeepsLate(j: Job, o: Pair, turn: S.Turn)
    requires Late(j, o) && Enabled(j, o, ServerActs(turn))
    ensures Late(j, Step(j, o, ServerActs(turn)))
  {
    hide C.InitPkt, RrPkt, RejPkt, S.InitStep, C.Step, Without, H.RequestOk, Intact;
    WithoutIn(o.toServer, 0);
    ControlFields(j.inCksum, 4);
    if o.toServer != [] {
      assert o.toServer[0] in o.toServer;
      OlderThanName(j, o.toServer[0]);
    }
    WaitsForName(j, o.server, turn);
    var (s1, sent) := S.InitStep(j.ServerHost(), o.server, turn);
    assert forall p :: p in sent ==> N.Control(j, p) && p.sequence >= 1;
  }

  /** A client that waits for packet 0 of the file and hears an answer of the handshake rejects it, and waits on. */
  lemma WaitsForFile(j: Job, c: C.Client, turn: C.Turn)
    requires c.mode == C.RECV_PACKETS && c.sequence == 0
    requires turn.event.Arrive? && Intact(j.inCksum, turn.event.p) ==> turn.event.p.sequence >= 1
    ensures var (c1, sent) := C.RecvPackets(j.ClientHost(), j.req, c, turn);
      && (c1.mode == C.RECV_PACKETS || c1.mode == C.ERROR) && c1.sequence == 0 && c1.output == c.output
      && forall p :: p in sent ==> p == RejPkt(j.inCksum, 0)
  {
    hide RrPkt, RejPkt, Intact;
  }

  lemma ClientKeepsLate(j: Job, o: Pair, turn: C.Turn)
    requires Late(j, o) && Enabled(j, o, ClientActs(turn))
    ensures Late(j, Step(j, o, ClientActs(turn)))
  {
    hide C.InitPkt, RrPkt, RejPkt, S.Step, C.RecvPackets, Without, N.Control, Intact;
    WithoutIn(o.toClient, 0);
    ControlFields(j.inCksum, 0);
    H.InitPktFields(j, 4);
    assert o.toClient != [] ==> o.toClient[0] in o.toClient;
    WaitsForFile(j, o.client, turn);
  }

  lemma StepKeepsLate(j: Job, o: Pair, a: Action)
    requires Late(j, o) && Enabled(j, o, a)
    ensures Late(j, Step(j, o, a))
  {
    match a {
      case ServerActs(turn) => ServerKeepsLate(j, o, turn);
      case ClientActs(turn) => ClientKeepsLate(j, o, turn);
      case _ =>
        WithoutIn(o.toClient, a.i);
        WithoutIn(o.toServer, a.i);
        hide Without, H.RequestOk, N.Control, C.InitPkt;
    }
  }

  /** The child is past its handshake, and nothing on its way to the client can bring the client past its own. */
  predicate Stuck(j: Job, o: Pair) {
    && (o.client.mode == C.ERROR || (o.client.mode == C.INIT && Wordless(o)
          && !Passes(o.client.index, o.toClient + Pending(j, o.server))))
    && o.server.mode != S.INIT && S.Disciplined(o.server)
  }

  /** A waiting server that hears no answer, like one that is filling or sending, sends what is pending and no more. */
  lemma PendingStep(j: Job, s: S.Server, turn: S.Turn)
    requires s.mode != S.INIT && S.Disciplined(s)
    requires s.mode == S.WAIT_RR ==> !S.Asks(Receive(j.inCksum, s.retries, turn.event).1)
    ensures var (s1, sent) := S.Step(j.ServerHost(), s, turn);
      sent + Pending(j, s1) <= Pending(j, s)
  {
    var h := j.ServerHost();
    match s.mode {
      case FILL_WINDOW => FillFault(h, s, turn.fault);
      case WAIT_RR => WaitSendsNothing(j, s, turn);
      case _ =>
    }
  }

  lemma WaitSendsNothing(j: Job, s: S.Server, turn: S.Turn)
    requires s.mode == S.WAIT_RR && S.Disciplined(s) && !S.Asks(Receive(j.inCksum, s.retries, turn.event).1)
    ensures Pending(j, S.WaitRR(j.ServerHost(), s, turn)) == []
  {
    var h := j.ServerHost();
    S.WaitKeeps(h, s, turn);
    assert S.Kept(h, s, turn.event) == s.window;
    var s1 := S.WaitRR(h, s, turn);
    hide S.WaitRR;
    if s1.mode == S.FILL_WINDOW {
      S.FillAppends(h, s1, S.NoFault);
      S.FillMode(h, s1, S.NoFault);
      hide S.Fill;
    }
  }

  /** A failing `read` apart, filling does not depend on the faults. */
  lemma {:induction false} FillFault(h: S.Host, s: S.Server, fault: S.Fault)
    ensures var s1 := S.Fill(h, s, fault);
      s1.mode == S.ERROR || (s1 == S.Fill(h, s, S.NoFault) && s1.mode == S.SEND_WINDOW)
    decreases s.windowSize - |s.window|
  {
    hide DatPkt, Chunks.Read;
    if |s.window| < s.windowSize && fault != S.After(0) {
      FillFault(h, S.Push(h, s), S.Less(fault));
    }
  }

  lemma NeverInit(h: S.Host, s: S.Server, turn: S.Turn)
    requires s.mode != S.INIT
    ensures S.Step(h, s, turn).0.mode != S.INIT
  {
    S.FillMode(h, s, turn.fault);
    hide S.Fill, S.Acked;
  }

  lemma HearsNoAnswer(j: Job, o: Pair, turn: S.Turn)
    requires o.client.mode == C.INIT && Wordless(o) && Enabled(j, o, ServerActs(turn)) && o.server.mode == S.WAIT_RR
    ensures !S.Asks(Receive(j.inCksum, o.server.retries, turn.event).1)
  {
    hide Intact;
    assert o.toServer != [] ==> o.toServer[0] in o.toServer;
  }

  lemma ServerKeepsStuck(j: Job, o: Pair, turn: S.Turn)
    requires Stuck(j, o) && Enabled(j, o, ServerActs(turn))
    ensures Stuck(j, Step(j, o, ServerActs(turn)))
  {
    hide S.Step, S.Disciplined, Pending, Wordless, Receive, Intact, Passes, Without;
    var o1 := Step(j, o, ServerActs(turn));
    NeverInit(j.ServerHost(), o.server, turn);
    S.StepKeepsDiscipline(j.ServerHost(), o.server, turn);
    if o.client.mode == C.INIT {
      if o.server.mode == S.WAIT_RR {
        HearsNoAnswer(j, o, turn);
      }
      StepKeepsWordless(j, o, ServerActs(turn));
      PendingStep(j, o.server, turn);
      var sent := S.Step(j.ServerHost(), o.server, turn).1;
      assert o1.toClient + Pending(j, o1.server) == o.toClient + (sent + Pending(j, o1.server));
      PassesLonger(o.client.index, o1.toClient + Pending(j, o1.server), o.toClient + Pending(j, o.server));
    }
  }

  lemma PassesNot(i: nat, ps: seq<Packet>)
    requires ps != [] && !Passes(i, ps)
    ensures i < C.INIT_PACKETS && C.NextIndex(i, ps[0]) < C.INIT_PACKETS
    ensures !Passes(C.NextIndex(i, ps[0]), ps[1..]) && !Passes(i, ps[1..])
  {
  }

  lemma ClientKeepsStuck(j: Job, o: Pair, turn: C.Turn)
    requires Stuck(j, o) && Enabled(j, o, ClientActs(turn))
    ensures Stuck(j, Step(j, o, ClientActs(turn)))
  {
    var o1 := Step(j, o, ClientActs(turn));
    var rest := Pending(j, o.server);
    var all := o.toClient + rest;
    StepKeepsWordless(j, o, ClientActs(turn));
    ClientIndex(j, o.client, turn);
    hide S.Step, C.Step, S.Disciplined, Pending, Wordless, Receive, Intact, Passes, C.NextIndex;
    if turn.event.Arrive? {
      assert o1.toClient == o.toClient[1..];
      assert all[0] == o.toClient[0] && all[1..] == o1.toClient + rest;
      PassesNot(o.client.index, all);
    } else {
      assert o1.toClient + rest == all;
    }
  }

  /** A client in its handshake stays at its packet, or takes the one it hears. */
  lemma ClientIndex(j: Job, c: C.Client, turn: C.Turn)
    requires c.mode == C.INIT && c.index < C.INIT_PACKETS
    ensures var c1 := C.Step(j.ClientHost(), j.req, c, turn).0;
      || c1.mode == C.ERROR
      || (c1.mode == C.INIT && c1.index == c.index)
      || (turn.event.Arrive? && Intact(j.inCksum, turn.event.p)
          && var i := C.NextIndex(c.index, turn.event.p);
            if i < C.INIT_PACKETS then c1.mode == C.INIT && c1.index == i else c1.mode == C.RECV_PACKETS)
  {
    hide C.InitPkt, Intact;
  }

  lemma DropKeepsStuck(j: Job, o: Pair, a: Action)
    requires Stuck(j, o) && Enabled(j, o, a) && (a.DropToClient? || a.DropToServer?)
    ensures Stuck(j, Step(j, o, a))
  {
    var o1 := Step(j, o, a);
    StepKeepsWordless(j, o, a);
    hide S.Disciplined, Pending, Wordless;
    if a.DropToClient? && o.client.mode == C.INIT {
      var rest := Pending(j, o.server);
      assert o1.toClient + rest == Without(o.toClient + rest, a.i);
      if Passes(o.client.index, o1.toClient + rest) {
        PassesWithout(o.client.index, o.toClient + rest, a.i);
      }
    }
  }

  lemma {:induction false} HopelessRun(j: Job, o: Pair, acts: seq<Action>, o': Pair)
    requires (Late(j, o) || Stuck(j, o)) && Runs(j, o, acts, o')
    ensures Late(j, o') || Stuck(j, o')
    decreases |acts|
  {
    hide Late, Stuck, Step, Enabled;
    if acts != [] {
      if Late(j, o) {
        StepKeepsLate(j, o, acts[0]);
      } else {
        match acts[0] {
          case ServerActs(turn) => ServerKeepsStuck(j, o, turn);
          case ClientActs(turn) => ClientKeepsStuck(j, o, turn);
          case _ => DropKeepsStuck(j, o, acts[0]);
        }
      }
      HopelessRun(j, Step(j, o, acts[0]), acts[1..], o');
    }
  }

  /** A state from the fork that fails the condition is one of the two dead ends. */
  lemma HopelessStart(j: Job, o: Pair)
    requires j.Valid() && WholeInv(j, o) && Wordless(o) && Willing(o) && !Completable(j, o)
    ensures Late(j, o) || Stuck(j, o)
  {
    if o.server.mode == S.INIT {
      LateStart(j, o);
    } else {
      DataInvBehind(j, o);
      hide DataInv, Pending, Wordless;
    }
  }

  lemma LateStart(j: Job, o: Pair)
    requires H.HandshakeInv(j, Unordered(o)) && o.client.mode == C.RECV_PACKETS
    requires C.InitPkt(j.inCksum, j.req, 4) !in o.toServer
    ensures Late(j, o)
  {
    var n := Unordered(o);
    forall p | p in o.toServer
      ensures H.RequestOk(j, 5, p)
    {
      assert p in n.toServer;
      H.RequestOkMono(j, 5, 5, p);
    }
    forall p | p in o.toClient
      ensures N.Control(j, p) && p.sequence >= 1
    {
      assert p in n.toClient;
    }
    hide C.InitPkt, RrPkt, RejPkt;
  }

  // ----- the theorem

  lemma CompletesIf(j: Job, o: Pair) returns (o': Pair)
    requires j.Valid() && WholeInv(j, o) && Wordless(o) && Willing(o) && Completable(j, o)
    ensures Reaches(j, o, o') && o'.client.mode == C.DONE && o'.client.output == j.File()
  {
    hide ReachesLosing, Passes, Pending, Job.Valid;
    if o.server.mode != S.INIT && o.client.mode == C.RECV_PACKETS {
      DataInvActive(j, o);
      o' := DataPhaseCompletes(j, o);
    } else {
      var o1, n1;
      if o.server.mode != S.INIT {
        o1, n1 := LateClientCompletes(j, o);
      } else if o.client.mode == C.INIT {
        o1, n1 := HandshakeCompletes(j, o);
      } else {
        o1, n1 := LateChildCompletes(j, o);
      }
      RunKeepsReach(j, o, o1, n1);
      o' := DataPhaseCompletes(j, o1);
      ReachesTrans(j, o, o1, o');
    }
  }

  /**
   * Completion: from any state that a run over ordered channels reaches from the fork, as long as neither side has
   * stopped and the client outlives one more timeout, some continuation delivers the whole file if and only if the
   * state meets the condition.
   */
  lemma CompletesExactly(j: Job, o0: Pair, o: Pair)
    requires j.Valid() && ForkStart(j, o0) && Reaches(j, o0, o) && Willing(o)
    ensures (exists o' :: Reaches(j, o, o') && o'.client.mode == C.DONE && o'.client.output == j.File())
       <==> Completable(j, o)
  {
    ReachesWholeInv(j, o0, o);
    var acts :| Runs(j, o0, acts, o);
    RunKeepsWordless(j, o0, acts, o);
    hide WholeInv, Wordless, Completable, Willing;
    if Completable(j, o) {
      var o' := CompletesIf(j, o);
    } else {
      HopelessStart(j, o);
      forall o' | Reaches(j, o, o')
        ensures o'.client.mode != C.DONE
      {
        var more :| Runs(j, o, more, o');
        HopelessRun(j, o, more, o');
      }
    }
  }

  // ----- both dead ends are reached

  /** Without loss the client comes to send packet 3 and the child to wait for it. */
  lemma AtThree(j: Job, o0: Pair) returns (o: Pair)
    requires ForkStart(j, o0)
    ensures ReachesLosing(j, o0, o, 0) && At(j, o, 3, 3) && o.client.retries == PKT_TRNSMAX
    ensures o.toClient == [] && o.toServer == [C.InitPkt(j.inCksum, j.req, 3)]
  {
    ControlFields(j.inCksum, 1);
    ControlFields(j.inCksum, 2);
    hide C.InitPkt, RrPkt, RejPkt, ReachesLosing, H.Agreed;
    var o1 := GoesBack(j, o0);
    var o2 := ClientTakes(j, o0, 0, o1, 1, 2);
    assert o2.toClient == [] && o2.toServer == [C.InitPkt(j.inCksum, j.req, 2)];
    var o3 := ChildTakes(j, o0, 0, o2, 2, 2, 2);
    assert o3.toClient == [RrPkt(j.inCksum, 2)] && o3.toServer == [];
    o := ClientTakes(j, o0, 0, o3, 2, 3);
    assert o.toClient == [] && o.toServer == [C.InitPkt(j.inCksum, j.req, 3)];
  }

  /**
   * One loss is enough: packet 3 is sent twice and answered with RR(3) and RR(4); RR(3) makes the client send packet 4,
   * which is lost, and RR(4) makes it go on without.
   */
  lemma ChildCanBeLeftBehind(j: Job, o0: Pair) returns (o: Pair)
    requires ForkStart(j, o0)
    ensures ReachesLosing(j, o0, o, 1) && Willing(o) && !Completable(j, o)
    ensures o.client.mode == C.RECV_PACKETS && o.server.mode == S.INIT
  {
    var p3 := C.InitPkt(j.inCksum, j.req, 3);
    ControlFields(j.inCksum, 3);
    ControlFields(j.inCksum, 4);
    hide C.InitPkt, RrPkt, RejPkt, ReachesLosing, H.Agreed;
    var o4 := AtThree(j, o0);
    var o5 := ClientRepeats(j, o0, 0, o4, 3, 3);
    assert o5.toClient == [] && o5.toServer == [p3, p3];
    var o6 := ChildTakes(j, o0, 0, o5, 3, 3, 3);
    assert o6.toClient == [RrPkt(j.inCksum, 3)] && o6.toServer == [p3];
    var o7 := ChildTakes(j, o0, 0, o6, 3, 4, 3);
    assert o7.toClient == [RrPkt(j.inCksum, 3), RrPkt(j.inCksum, 4)] && o7.toServer == [];
    var o8 := ClientTakes(j, o0, 0, o7, 3, 4);
    assert o8.toClient == [RrPkt(j.inCksum, 4)] && |o8.toServer| == 1;
    var o9 := RequestLost(j, o0, 0, o8);
    o := ClientHears(j, o0, 1, o9);
  }

  /** If RR(4) and the first window are lost, the child is silent for ever after, and the client never hears of it. */
  lemma ClientCanBeLeftBehind(j: Job, o0: Pair) returns (o: Pair)
    requires j.Valid() && ForkStart(j, o0)
    ensures Reaches(j, o0, o) && Willing(o) && !Completable(j, o)
    ensures o.client.mode == C.INIT && o.server.mode == S.WAIT_RR
  {
    ForkIsWhole(j, o0);
    hide ReachesLosing, Job.Valid, H.Agreed, RrPkt;
    var o1 := GoesBack(j, o0);
    var o2, n2 := Meets(j, o0, 0, o1, 1, 2);
    var o3 := Climb(j, o0, n2, o2, 2);
    RunKeepsReach(j, o0, o3, n2);
    var o4 := FillsAndSends(j, o0, n2, o3);
    var n5;
    o, n5 := AnswersLost(j, o0, n2, o4);
    RunKeepsReach(j, o0, o, n5);
  }
}
