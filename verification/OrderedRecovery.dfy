/** Over ordered channels too, every patient state of the data phase can be completed, for files of any length. */
module OrderedRecovery {
  import opened Packets
  import opened Transfers
  import opened Ordered
  import opened HandshakeLoop
  import S = ServerSpec
  import C = ClientSpec

  // ----- losing everything in flight

  lemma {:induction false} AnswersLost(j: Job, o0: Pair, n: nat, o: Pair) returns (o1: Pair, n1: nat)
    requires ReachesLosing(j, o0, o, n)
    ensures ReachesLosing(j, o0, o1, n1) && o1 == o.(toClient := [])
    decreases |o.toClient|
  {
    hide ReachesLosing;
    o1, n1 := o, n;
    if o.toClient != [] {
      var o2 := AnswerLost(j, o0, n, o);
      o1, n1 := AnswersLost(j, o0, n + 1, o2);
    }
  }

  /** The packet at the head of the server's queue is lost. */
  lemma RequestLost(j: Job, o0: Pair, n: nat, o: Pair) returns (o1: Pair)
    requires ReachesLosing(j, o0, o, n) && o.toServer != []
    ensures ReachesLosing(j, o0, o1, n + 1) && o1 == o.(toServer := o.toServer[1..])
  {
    hide ReachesLosing;
    o1 := Step(j, o, DropToServer(0));
    LosingStep(j, o0, o, n, DropToServer(0));
    assert o.toServer[..0] + o.toServer[1..] == o.toServer[1..];
  }

  /** The first `k` packets of the server's queue are lost. */
  lemma {:induction false} RequestsLost(j: Job, o0: Pair, n: nat, o: Pair, k: nat) returns (o1: Pair, n1: nat)
    requires ReachesLosing(j, o0, o, n) && k <= |o.toServer|
    ensures ReachesLosing(j, o0, o1, n1) && o1 == o.(toServer := o.toServer[k..])
    decreases k
  {
    hide ReachesLosing;
    o1, n1 := o, n;
    if k > 0 {
      var o2 := RequestLost(j, o0, n, o);
      o1, n1 := RequestsLost(j, o0, n + 1, o2, k - 1);
    }
  }

  /** Everything in flight is lost. */
  lemma AllLost(j: Job, o0: Pair, n: nat, o: Pair) returns (o1: Pair, n1: nat)
    requires ReachesLosing(j, o0, o, n)
    ensures ReachesLosing(j, o0, o1, n1) && o1 == o.(toClient := [], toServer := [])
  {
    hide ReachesLosing;
    var o2, n2 := AnswersLost(j, o0, n, o);
    o1, n1 := RequestsLost(j, o0, n2, o2, |o.toServer|);
  }

  /** One more action, after which the invariant still holds. */
  lemma Acts(j: Job, o0: Pair, n: nat, o: Pair, a: Action) returns (o1: Pair)
    requires j.Valid() && ReachesLosing(j, o0, o, n) && DataInv(j, o)
    requires Enabled(j, o, a) && (a.ServerActs? || a.ClientActs?)
    ensures ReachesLosing(j, o0, o1, n) && DataInv(j, o1) && o1 == Step(j, o, a)
  {
    hide ReachesLosing, DataInv, Step;
    o1 := Step(j, o, a);
    LosingStep(j, o0, o, n, a);
    StepKeepsDataInv(j, o, a);
  }

  lemma LossKeepsDataInv(j: Job, o: Pair)
    requires DataInv(j, o)
    ensures DataInv(j, o.(toClient := [])) && DataInv(j, o.(toServer := []))
  {
  }

  // ----- one round

  /** The client is receiving and outlives one more timeout, the server waits, and nothing is in flight. */
  ghost predicate Idle(j: Job, o: Pair) {
    && DataInv(j, o) && o.toClient == [] && o.toServer == []
    && o.client.mode == C.RECV_PACKETS && o.client.retries >= 2
    && o.server.mode == S.WAIT_RR && o.server.retries >= 1
  }

  /** A pass through FILL_WINDOW. */
  lemma Fills(j: Job, o0: Pair, n: nat, o: Pair) returns (o1: Pair)
    requires j.Valid() && ReachesLosing(j, o0, o, n) && DataInv(j, o)
    requires o.server.mode == S.FILL_WINDOW && o.server.retries >= 1
    ensures ReachesLosing(j, o0, o1, n) && DataInv(j, o1)
    ensures o1 == o.(server := S.Fill(j.ServerHost(), o.server, S.NoFault))
    ensures o1.server.mode == S.SEND_WINDOW && o1.server.retries == o.server.retries
    ensures BaseOf(o1.server) == BaseOf(o.server)
    ensures |o.server.window| == j.W() ==> o1.server.outBuf == o.server.outBuf
  {
    hide DataInv, ReachesLosing, S.Fill, Job.Valid, Dat;
    var s := o.server;
    S.FillMode(j.ServerHost(), s, S.NoFault);
    DataInvBehind(j, o);
    FillSynced(j, s, S.NoFault);
    o1 := Acts(j, o0, n, o, ServerActs(S.SILENCE));
    assert o.toClient + [] == o.toClient;
    if |s.window| == j.W() {
      assert o1.server.window[|s.window|..] == [];
      assert s.outBuf + [] == s.outBuf;
    }
  }

  /** A pass through SEND_WINDOW. */
  lemma Sends(j: Job, o0: Pair, n: nat, o: Pair) returns (o1: Pair)
    requires j.Valid() && ReachesLosing(j, o0, o, n) && DataInv(j, o)
    requires o.server.mode == S.SEND_WINDOW && o.server.retries >= 1
    ensures ReachesLosing(j, o0, o1, n) && DataInv(j, o1) && o1.client == o.client && o1.toServer == o.toServer
    ensures o1.server == o.server.(mode := S.WAIT_RR, outBuf := []) && o1.toClient == o.toClient + o.server.outBuf
  {
    hide ReachesLosing, Job.Valid, DataInv;
    o1 := Acts(j, o0, n, o, ServerActs(S.SILENCE));
    assert o.server.outBuf[..|o.server.outBuf|] == o.server.outBuf;
  }

  /** Both: what is queued is sent, and the server waits. */
  lemma FillsAndSends(j: Job, o0: Pair, n: nat, o: Pair) returns (o2: Pair)
    requires j.Valid() && ReachesLosing(j, o0, o, n) && DataInv(j, o)
    requires o.server.mode == S.FILL_WINDOW && o.server.retries >= 1
    ensures ReachesLosing(j, o0, o2, n) && DataInv(j, o2)
    ensures o2.client == o.client && o2.toServer == o.toServer
    ensures o2.server.mode == S.WAIT_RR && o2.server.retries == o.server.retries
    ensures BaseOf(o2.server) == BaseOf(o.server)
    ensures o2.toClient == o.toClient + S.Fill(j.ServerHost(), o.server, S.NoFault).outBuf
    ensures |o.server.window| == j.W() ==> o2.toClient == o.toClient + o.server.outBuf
  {
    hide ReachesLosing, Job.Valid, DataInv, S.Fill;
    var o1 := Fills(j, o0, n, o);
    o2 := Sends(j, o0, n, o1);
  }

  lemma DataInvBehind(j: Job, o: Pair)
    requires j.Valid() && DataInv(j, o) && S.Active(o.server)
    ensures ServerOk(j, o.server) && BaseOf(o.server) + j.W() < U32_SIZE
    ensures 0 <= BaseOf(o.server) <= j.Last() && BaseOf(o.server) <= Stored(j, o.client) <= o.client.sequence
    ensures |o.server.window| <= j.W() && (o.server.mode == S.WAIT_RR ==> |o.server.window| == j.W() >= 1)
    ensures S.Base(o.server) == BaseOf(o.server)
  {
    BehindOk(j, o.server, Stored(j, o.client));
    FrontIsBase(j, o.server);
    StoredBounds(j, o.client);
  }

  lemma RejRequeues(j: Job, s: S.Server, k: uint32)
    requires s.mode == S.WAIT_RR && S.Base(s) <= k
    ensures S.Step(j.ServerHost(), s, S.Turn(Arrive(RejPkt(j.inCksum, k)), S.NoFault))
         == (s.(retries := PKT_TRNSMAX, outBuf := s.window, mode := S.FILL_WINDOW), [])
  {
    ControlFields(j.inCksum, k);
    hide RejPkt;
  }

  /** The client's timeout puts its REJ in flight. */
  lemma TimesOut(j: Job, o0: Pair, n: nat, o: Pair) returns (o1: Pair)
    requires j.Valid() && ReachesLosing(j, o0, o, n) && Idle(j, o)
    ensures ReachesLosing(j, o0, o1, n) && DataInv(j, o1)
    ensures o1 == o.(client := o.client.(retries := o.client.retries - 1),
                     toServer := [RejPkt(j.inCksum, o.client.sequence)])
  {
    OneAnswer(j, o.client, C.SILENCE);
    hide DataInv, ReachesLosing, RejPkt, Job.Valid;
    o1 := Acts(j, o0, n, o, ClientActs(C.SILENCE));
  }

  /** The REJ of a client that is not behind the window makes the server queue its window. */
  lemma Requeues(j: Job, o0: Pair, n: nat, o: Pair, k: uint32) returns (o1: Pair)
    requires j.Valid() && ReachesLosing(j, o0, o, n) && DataInv(j, o)
    requires o.server.mode == S.WAIT_RR && o.server.retries >= 1 && S.Base(o.server) <= k
    requires o.toServer == [RejPkt(j.inCksum, k)]
    ensures ReachesLosing(j, o0, o1, n) && DataInv(j, o1)
    ensures o1 == o.(server := o.server.(retries := PKT_TRNSMAX, outBuf := o.server.window, mode := S.FILL_WINDOW),
                     toServer := [])
  {
    RejRequeues(j, o.server, k);
    hide DataInv, ReachesLosing, RejPkt, Job.Valid, S.Step;
    o1 := Acts(j, o0, n, o, ServerActs(S.Turn(Arrive(RejPkt(j.inCksum, k)), S.NoFault)));
    assert o.toClient + [] == o.toClient;
  }

  /** So a timeout makes the server send its whole window again. */
  lemma Resent(j: Job, o0: Pair, n: nat, o: Pair) returns (o2: Pair)
    requires j.Valid() && ReachesLosing(j, o0, o, n) && Idle(j, o)
    ensures ReachesLosing(j, o0, o2, n) && DataInv(j, o2)
    ensures o2.client == o.client.(retries := o.client.retries - 1)
    ensures o2.server.mode == S.WAIT_RR && o2.server.retries >= 1 && BaseOf(o2.server) == BaseOf(o.server)
    ensures o2.toServer == [] && o2.toClient != [] && o2.toClient[0] == Dat(j, BaseOf(o.server))
  {
    DataInvBehind(j, o);
    FrontOfWindow(j, o.server);
    hide DataInv, ReachesLosing, RejPkt, Dat, Job.Valid, ServerOk, Step;
    var o1 := TimesOut(j, o0, n, o);
    o2 := Requeues(j, o0, n, o1, o.client.sequence);
    o2 := FillsAndSends(j, o0, n, o2);
    assert o2.toClient == [] + o.server.window == o.server.window;
  }

  lemma FrontOfWindow(j: Job, s: S.Server)
    requires Synced(j, s) && s.window != []
    ensures s.window[0] == Dat(j, BaseOf(s))
  {
  }

  /** The client takes the oldest packet of the window: the last one ends the transfer, any other is answered by RR. */
  lemma FrontTaken(j: Job, o0: Pair, n: nat, o: Pair) returns (o1: Pair)
    requires j.Valid() && ReachesLosing(j, o0, o, n) && DataInv(j, o)
    requires o.client.mode == C.RECV_PACKETS && o.client.retries >= 1
    requires o.server.mode == S.WAIT_RR && o.server.retries >= 1
    requires o.toServer == [] && o.toClient != [] && o.toClient[0] == Dat(j, BaseOf(o.server))
    ensures ReachesLosing(j, o0, o1, n) && DataInv(j, o1) && o1.server == o.server
    ensures BaseOf(o.server) == j.Last() ==> o1.client.mode == C.DONE
    ensures BaseOf(o.server) < j.Last() ==>
      && o1.client.mode == C.RECV_PACKETS && o1.client.retries == PKT_TRNSMAX
      && 0 <= BaseOf(o.server) < U32_SIZE && o1.toServer == [RrPkt(j.inCksum, BaseOf(o.server))]
  {
    DataInvBehind(j, o);
    var b: nat := BaseOf(o.server);
    var turn := C.Turn(Arrive(Dat(j, b)), C.All, true, true);
    DatFields(j, b);
    DataInvClient(j, o);
    NumbersFit(j);
    if b == o.client.sequence {
      AcceptOk(j, o.client, turn);
    }
    hide DataInv, ReachesLosing, RrPkt, Dat, Job.Valid, Job.Last;
    o1 := Acts(j, o0, n, o, ClientActs(turn));
  }

  lemma DataInvClient(j: Job, o: Pair)
    requires DataInv(j, o)
    ensures ClientOk(j, o.client) && o.server.mode != S.INIT
  {
  }

  lemma RrShifts(j: Job, s: S.Server, k: uint32)
    requires j.Valid() && ServerOk(j, s) && s.mode == S.WAIT_RR && BaseOf(s) == S.Base(s) == k
    ensures var (s1, sent) := S.Step(j.ServerHost(), s, S.Turn(Arrive(RrPkt(j.inCksum, k)), S.NoFault));
      && s1.mode == S.FILL_WINDOW && s1.retries == PKT_TRNSMAX && sent == []
      && (BaseOf(s) < s.sequence ==> BaseOf(s1) == k + 1)
  {
    ControlFields(j.inCksum, k);
    WaitOk(j, s, S.Turn(Arrive(RrPkt(j.inCksum, k)), S.NoFault));
    hide RrPkt, ServerOk, S.Acked, S.Disciplined, Job.Valid;
  }

  /** RR for the oldest packet moves the window by one. */
  lemma FrontAcknowledged(j: Job, o0: Pair, n: nat, o: Pair) returns (o1: Pair)
    requires j.Valid() && ReachesLosing(j, o0, o, n) && DataInv(j, o)
    requires o.server.mode == S.WAIT_RR && o.server.retries >= 1
    requires 0 <= BaseOf(o.server) < U32_SIZE && o.toServer == [RrPkt(j.inCksum, BaseOf(o.server))]
    ensures ReachesLosing(j, o0, o1, n) && DataInv(j, o1) && o1.client == o.client && o1.toServer == []
    ensures o1.server.mode == S.WAIT_RR && o1.server.retries >= 1 && BaseOf(o1.server) == BaseOf(o.server) + 1
  {
    DataInvBehind(j, o);
    hide DataInv, ReachesLosing, RrPkt, Dat, Job.Valid, ServerOk, S.Step;
    var r := RrPkt(j.inCksum, BaseOf(o.server));
    RrShifts(j, o.server, BaseOf(o.server));
    var o2 := Acts(j, o0, n, o, ServerActs(S.Turn(Arrive(r), S.NoFault)));
    assert o2.toServer == [];
    o1 := FillsAndSends(j, o0, n, o2);
  }

  /** A round: the transfer is completed, or the base is one further on. */
  lemma OneRound(j: Job, o0: Pair, n: nat, o: Pair) returns (o1: Pair, n1: nat)
    requires j.Valid() && ReachesLosing(j, o0, o, n) && Idle(j, o)
    ensures ReachesLosing(j, o0, o1, n1) && DataInv(j, o1)
    ensures 0 <= BaseOf(o.server) <= j.Last()
    ensures BaseOf(o.server) == j.Last() ==> o1.client.mode == C.DONE
    ensures BaseOf(o.server) < j.Last() ==> Idle(j, o1) && BaseOf(o1.server) == BaseOf(o.server) + 1
  {
    DataInvBehind(j, o);
    hide DataInv, ReachesLosing, RrPkt, Dat, Job.Valid, Job.Last, Step;
    var o2 := Resent(j, o0, n, o);
    var o3 := FrontTaken(j, o0, n, o2);
    o1, n1 := o3, n;
    if BaseOf(o.server) < j.Last() {
      var o4, n4 := AnswersLost(j, o0, n, o3);
      LossKeepsDataInv(j, o3);
      var o5 := FrontAcknowledged(j, o0, n4, o4);
      LossKeepsDataInv(j, o5);
      o1, n1 := AnswersLost(j, o0, n4, o5);
    }
  }

  /** Rounds complete the transfer. */
  lemma {:induction false} RoundsComplete(j: Job, o0: Pair, n: nat, o: Pair) returns (o1: Pair, n1: nat)
    requires j.Valid() && ReachesLosing(j, o0, o, n) && Idle(j, o)
    ensures ReachesLosing(j, o0, o1, n1) && o1.client.mode == C.DONE && o1.client.output == j.File()
    decreases j.Last() - BaseOf(o.server)
  {
    hide DataInv, ReachesLosing, Job.Valid, Job.Last, BaseOf;
    o1, n1 := OneRound(j, o0, n, o);
    if BaseOf(o.server) < j.Last() {
      o1, n1 := RoundsComplete(j, o0, n1, o1);
    } else {
      DataInvClient(j, o1);
    }
  }

  /** Both sides are in the data phase, neither has given up, and the client outlives one more timeout. */
  predicate Patient(o: Pair) {
    && o.client.mode == C.RECV_PACKETS && o.client.retries >= 2
    && S.Active(o.server) && o.server.retries >= 1
  }

  /** A server left alone comes to wait; then everything in flight is lost. */
  lemma Settles(j: Job, o0: Pair, n: nat, o: Pair) returns (o1: Pair, n1: nat)
    requires j.Valid() && ReachesLosing(j, o0, o, n) && DataInv(j, o) && Patient(o)
    ensures ReachesLosing(j, o0, o1, n1) && Idle(j, o1)
  {
    hide ReachesLosing, Job.Valid, DataInv, Step;
    var o2 := o;
    if o.server.mode == S.FILL_WINDOW {
      o2 := FillsAndSends(j, o0, n, o);
    } else if o.server.mode == S.SEND_WINDOW {
      o2 := Sends(j, o0, n, o);
    }
    o1, n1 := AllLost(j, o0, n, o2);
    LossKeepsDataInv(j, o2);
    LossKeepsDataInv(j, o2.(toClient := []));
  }

  /** Every patient state of the data phase has a continuation that delivers the whole file. */
  lemma DataPhaseCompletes(j: Job, o: Pair) returns (o': Pair)
    requires j.Valid() && DataInv(j, o) && Patient(o)
    ensures Reaches(j, o, o') && o'.client.mode == C.DONE && o'.client.output == j.File()
  {
    LosingStart(j, o);
    var o1, n1 := Settles(j, o, 0, o);
    var n2;
    o', n2 := RoundsComplete(j, o, n1, o1);
  }

  /**
   * Recoverability over ordered channels: from every patient state of the data phase reached from the fork through any
   * losses and corruption some continuation delivers the whole file.
   */
  lemma AlwaysRecoverable(j: Job, o0: Pair, o: Pair)
    requires j.Valid() && ForkStart(j, o0) && Reaches(j, o0, o) && Patient(o)
    ensures exists o' :: Reaches(j, o, o') && o'.client.mode == C.DONE && o'.client.output == j.File()
  {
    ReachesWholeInv(j, o0, o);
    var o' := DataPhaseCompletes(j, o);
  }
}
