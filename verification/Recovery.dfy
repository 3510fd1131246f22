/** From every state of the data phase in which both sides still have patience, the transfer can be completed. */
module Recovery {
  import opened Packets
  import opened Chunks
  import opened Transfers
  import opened Network
  import opened Handshake
  import opened EndToEnd
  import S = ServerSpec
  import C = ClientSpec

  /** The client is receiving and outlives one more timeout, the server waits. */
  predicate Ready(n: Net) {
    && n.client.mode == C.RECV_PACKETS && n.client.retries >= 2
    && n.server.mode == S.WAIT_RR && n.server.retries >= 1
  }

  /** The server receives a packet, refills its window and sends what is queued. */
  function Served(j: Job, n: Net, p: Packet): Net {
    Step(j, Step(j, Step(j, n, ServerGets(p)), ServerQuiet()), ServerQuiet())
  }

  function ServedAll(j: Job, n: Net, ps: seq<Packet>): Net
    decreases |ps|
  {
    if ps == [] then n else ServedAll(j, Served(j, n, ps[0]), ps[1..])
  }

  /** The client receives packets in order while it runs; also what it answers. */
  function Fed(j: Job, n: Net, ps: seq<Packet>): (Net, seq<Packet>)
    decreases |ps|
  {
    if ps == [] || !C.Live(n.client) then (n, []) else
    var answer := C.Step(j.ClientHost(), j.req, n.client, C.Turn(Arrive(ps[0]), C.All, true, true)).1;
    var (n1, answers) := Fed(j, Step(j, n, ClientGets(ps[0])), ps[1..]);
    (n1, answer + answers)
  }

  /** The client has what happens to it next, and no call of it fails. */
  function ClientHas(e: Event): Action {
    ClientActs(C.Turn(e, C.All, true, true))
  }

  /**
   * What prompts a client to ask for its packet: a second of silence that leaves it a retry, a corrupt packet, or a
   * gap, that is a packet of the file numbered above the awaited one.
   */
  predicate Prompts(j: Job, n: Net, e: Event) {
    match e
    case Timeout => n.client.retries >= 2
    case RecvError => false
    case Arrive(p) =>
      || !Intact(j.inCksum, p)
      || (FilePacket(j, p) && p in n.toClient && p.sequence > n.client.sequence)
  }

  /**
   * One round without loss, in which everything sent before it is lost but what prompts it: the client sends its REJ,
   * the server sends its window again, the client takes the window, the server takes the answers.
   */
  function Round(j: Job, n: Net, e: Event): Net {
    var n1 := Step(j, n, ClientHas(e));
    var n2 := Served(j, n1, RejPkt(j.inCksum, n.client.sequence));
    var (n3, answers) := Fed(j, n2, n2.server.window);
    ServedAll(j, n3, answers)
  }

  function Rounds(j: Job, n: Net, k: nat): Net
    decreases k
  {
    if k == 0 then n else Rounds(j, Round(j, n, Timeout), k - 1)
  }

  // ----- the server's part of a round

  /** A pass through FILL_WINDOW and one through SEND_WINDOW: the filled window is sent, and the server waits. */
  lemma FillsAndSends(j: Job, n: Net)
    requires n.server.mode == S.FILL_WINDOW && n.server.retries >= 1
    ensures var s1 := S.Fill(j.ServerHost(), n.server, S.NoFault);
      var n2 := Step(j, Step(j, n, ServerQuiet()), ServerQuiet());
      && CleanlyReaches(j, n, n2)
      && n2 == n.(server := s1.(outBuf := [], mode := S.WAIT_RR), toClient := n.toClient + Elements(s1.outBuf))
  {
    S.FillMode(j.ServerHost(), n.server, S.NoFault);
    var n1 := Step(j, n, ServerQuiet());
    assert n1 == n.(server := S.Fill(j.ServerHost(), n.server, S.NoFault)) by {
      assert n.toClient + Elements([]) == n.toClient;
    }
    hide S.Fill, CleanlyReaches;
    CleanlyStep(j, n, ServerQuiet());
    CleanlyStep(j, n1, ServerQuiet());
    CleanlyTrans(j, n, n1, Step(j, n1, ServerQuiet()));
    assert n1.server.outBuf[..|n1.server.outBuf|] == n1.server.outBuf;
  }

  lemma RefillKeepsDataInv(j: Job, n: Net)
    requires j.Valid() && DataInv(j, n) && n.server.mode == S.FILL_WINDOW && n.server.retries >= 1
    ensures DataInv(j, Step(j, Step(j, n, ServerQuiet()), ServerQuiet()))
  {
    S.FillMode(j.ServerHost(), n.server, S.NoFault);
    hide DataInv, S.Fill;
    ServerKeepsDataInv(j, n, S.SILENCE);
    ServerKeepsDataInv(j, Step(j, n, ServerQuiet()), S.SILENCE);
  }

  lemma FilledFrom(j: Job, n: Net)
    requires j.Valid() && DataInv(j, n) && n.server.mode == S.FILL_WINDOW
    ensures var s, s1 := n.server, S.Fill(j.ServerHost(), n.server, S.NoFault);
      && s1.retries == s.retries && BaseOf(s1) == BaseOf(s)
      && s.outBuf <= s1.outBuf
      && (|s.window| == j.W() ==> s1.window == s.window)
  {
    var s1 := S.Fill(j.ServerHost(), n.server, S.NoFault);
    hide Dat, ClientOk, ToClientOk, AnswerOk, S.Fill;
    S.FillMode(j.ServerHost(), n.server, S.NoFault);
    FillSynced(j, n.server, S.NoFault);
    assert s1.window[..j.W()] == s1.window;
  }

  /** What a pass through FILL_WINDOW and SEND_WINDOW does to a live server of the data phase. */
  lemma Refilled(j: Job, n: Net)
    requires j.Valid() && DataInv(j, n) && n.server.mode == S.FILL_WINDOW && n.server.retries >= 1
    ensures var n1 := Step(j, Step(j, n, ServerQuiet()), ServerQuiet());
      && CleanlyReaches(j, n, n1) && DataInv(j, n1)
      && n1.client == n.client && n1.toServer == n.toServer && n.toClient <= n1.toClient
      && n1.server.mode == S.WAIT_RR && n1.server.retries == n.server.retries
      && BaseOf(n1.server) == BaseOf(n.server)
      && Elements(n.server.outBuf) <= n1.toClient
      && (|n.server.window| == j.W() ==> n1.server.window == n.server.window)
  {
    FillsAndSends(j, n);
    RefillKeepsDataInv(j, n);
    FilledFrom(j, n);
    hide Step, DataInv, S.Fill, CleanlyReaches, Job.Valid;
  }

  /** A REJ inside or above the window makes the server send its whole window again and wait. */
  lemma ServedRej(j: Job, n: Net, k: uint32)
    requires j.Valid() && DataInv(j, n) && n.server.mode == S.WAIT_RR && n.server.retries >= 1
    requires RejPkt(j.inCksum, k) in n.toServer && BaseOf(n.server) <= k
    ensures var n1 := Served(j, n, RejPkt(j.inCksum, k));
      && CleanlyReaches(j, n, n1) && DataInv(j, n1)
      && n1.client == n.client && n1.toServer == n.toServer
      && n1.server.mode == S.WAIT_RR && n1.server.retries >= 1
      && BaseOf(n1.server) == BaseOf(n.server)
      && Elements(n1.server.window) <= n1.toClient
  {
    var p := RejPkt(j.inCksum, k);
    ControlFields(j.inCksum, k);
    FrontIsBase(j, n.server);
    var n0 := Step(j, n, ServerGets(p));
    CleanlyStep(j, n, ServerGets(p));
    ServerKeepsDataInv(j, n, S.Turn(Arrive(p), S.NoFault));
    Refilled(j, n0);
    CleanlyTrans(j, n, n0, Served(j, n, p));
  }

  /** RR for the front packet moves the window by one. */
  lemma ServedRr(j: Job, n: Net)
    requires j.Valid() && DataInv(j, n) && n.server.mode == S.WAIT_RR && n.server.retries >= 1
    requires BaseOf(n.server) < U32_SIZE && RrPkt(j.inCksum, BaseOf(n.server)) in n.toServer
    ensures var n1 := Served(j, n, RrPkt(j.inCksum, BaseOf(n.server)));
      && CleanlyReaches(j, n, n1) && DataInv(j, n1)
      && n1.client == n.client && n1.toServer == n.toServer
      && n1.server.mode == S.WAIT_RR && n1.server.retries >= 1
      && BaseOf(n1.server) == BaseOf(n.server) + 1
  {
    var p := RrPkt(j.inCksum, BaseOf(n.server));
    ControlFields(j.inCksum, BaseOf(n.server));
    FrontIsBase(j, n.server);
    WaitOk(j, n.server, S.Turn(Arrive(p), S.NoFault));
    var n0 := Step(j, n, ServerGets(p));
    CleanlyStep(j, n, ServerGets(p));
    ServerKeepsDataInv(j, n, S.Turn(Arrive(p), S.NoFault));
    Refilled(j, n0);
    CleanlyTrans(j, n, n0, Served(j, n, p));
  }

  /** Consecutive packets of the file from `lo` on, all of them sent. */
  ghost predicate DatRun(j: Job, ps: seq<Packet>, lo: nat, channel: set<Packet>) {
    forall i :: 0 <= i < |ps| ==> ps[i] == Dat(j, lo + i) && ps[i] in channel
  }

  /** RRs with consecutive numbers from `lo` on, all of them sent. */
  ghost predicate RrRun(j: Job, ps: seq<Packet>, lo: nat, channel: set<Packet>) {
    forall i :: 0 <= i < |ps| ==> ps[i] == RrPkt(j.inCksum, (lo + i) % U32_SIZE) && ps[i] in channel
  }

  lemma DatRunTail(j: Job, ps: seq<Packet>, lo: nat, channel: set<Packet>)
    requires DatRun(j, ps, lo, channel) && ps != []
    ensures ps[0] == Dat(j, lo) && ps[0] in channel && DatRun(j, ps[1..], lo + 1, channel)
  {
    hide Dat;
  }

  lemma RrRunTail(j: Job, ps: seq<Packet>, lo: uint32, channel: set<Packet>)
    requires RrRun(j, ps, lo, channel) && ps != []
    ensures ps[0] == RrPkt(j.inCksum, lo) && ps[0] in channel && RrRun(j, ps[1..], lo + 1, channel)
  {
  }

  lemma RrRunCons(j: Job, ps: seq<Packet>, lo: uint32, channel: set<Packet>)
    requires RrPkt(j.inCksum, lo) in channel && RrRun(j, ps, lo + 1, channel)
    ensures RrRun(j, [RrPkt(j.inCksum, lo)] + ps, lo, channel)
  {
  }

  lemma {:induction false} ServedAllRrs(j: Job, n: Net, ps: seq<Packet>)
    requires j.Valid() && DataInv(j, n) && n.server.mode == S.WAIT_RR && n.server.retries >= 1
    requires 0 <= BaseOf(n.server) && BaseOf(n.server) + |ps| <= U32_SIZE
    requires RrRun(j, ps, BaseOf(n.server), n.toServer)
    ensures var n1 := ServedAll(j, n, ps);
      && CleanlyReaches(j, n, n1) && DataInv(j, n1)
      && n1.client == n.client
      && n1.server.mode == S.WAIT_RR && n1.server.retries >= 1
      && BaseOf(n1.server) == BaseOf(n.server) + |ps|
    decreases |ps|
  {
    hide Served, DataInv, RrPkt, RrRun, CleanlyReaches;
    if ps == [] {
      CleanlySelf(j, n);
    } else {
      RrRunTail(j, ps, BaseOf(n.server), n.toServer);
      ServedRr(j, n);
      var n1 := Served(j, n, ps[0]);
      ServedAllRrs(j, n1, ps[1..]);
      CleanlyTrans(j, n, n1, ServedAll(j, n, ps));
    }
  }

  // ----- the client's part of a round

  /** A packet of the file whose number the client has reached is answered by its own RR, unless it is the last. */
  lemma FedOne(j: Job, n: Net, k: nat)
    requires j.Valid() && DataInv(j, n) && n.client.mode == C.RECV_PACKETS && n.client.retries >= 1
    requires k <= n.client.sequence && k < U32_SIZE && Dat(j, k) in n.toClient
    ensures var (c, sent) := C.Step(j.ClientHost(), j.req, n.client, C.Turn(Arrive(Dat(j, k)), C.All, true, true));
      var n1 := Step(j, n, ClientGets(Dat(j, k)));
      && CleanlyReaches(j, n, n1) && DataInv(j, n1) && n1.client == c
      && n1.server == n.server && n1.toClient == n.toClient && n.toServer <= n1.toServer
      && c.retries == PKT_TRNSMAX
      && (k < j.Last() ==>
            && c.mode == C.RECV_PACKETS && sent == [RrPkt(j.inCksum, k)] && sent[0] in n1.toServer
            && c.sequence == if k == n.client.sequence then k + 1 else n.client.sequence)
      && (k == j.Last() ==> c.mode == C.DONE)
  {
    var turn := C.Turn(Arrive(Dat(j, k)), C.All, true, true);
    DatFields(j, k);
    DatIsNotControl(j, k);
    CleanlyStep(j, n, ClientGets(Dat(j, k)));
    ClientKeepsDataInv(j, n, turn);
    OneAnswer(j, n.client, turn);
    if k == n.client.sequence {
      AcceptOk(j, n.client, turn);
    }
    hide Dat, RrPkt;
    assert Elements([RrPkt(j.inCksum, k)]) == {RrPkt(j.inCksum, k)};
  }

  /**
   * The packets of the file from `lo` on, delivered in order to a client that has reached `lo`: each but the last of
   * the file is answered by its RR, and the last ends the transfer.
   */
  lemma {:induction false} FedRun(j: Job, n: Net, ps: seq<Packet>, lo: nat)
    requires j.Valid() && DataInv(j, n) && n.client.mode == C.RECV_PACKETS && n.client.retries >= 1
    requires lo <= n.client.sequence && lo + |ps| <= U32_SIZE && lo <= j.Last()
    requires DatRun(j, ps, lo, n.toClient)
    ensures var (n1, answers) := Fed(j, n, ps);
      && CleanlyReaches(j, n, n1) && DataInv(j, n1) && n1.server == n.server
      && |answers| == Min(|ps|, j.Last() - lo) && RrRun(j, answers, lo, n1.toServer)
      && if lo + |ps| > j.Last() then n1.client.mode == C.DONE
         else
           && n1.client.mode == C.RECV_PACKETS && n1.client.retries >= Min(n.client.retries, PKT_TRNSMAX)
           && (ps != [] ==> n1.client.retries == PKT_TRNSMAX)
    decreases |ps|
  {
    hide DataInv, Dat, RrPkt, C.Step, Step, DatRun, RrRun, CleanlyReaches;
    if ps == [] {
      CleanlySelf(j, n);
      EmptyRrRun(j, lo, n.toServer);
    } else {
      DatRunTail(j, ps, lo, n.toClient);
      FedOne(j, n, lo);
      var n1 := Step(j, n, ClientGets(ps[0]));
      var (n2, answers) := Fed(j, n1, ps[1..]);
      if lo < j.Last() {
        FedRun(j, n1, ps[1..], lo + 1);
        AnswersStay(j, n1, ps[1..]);
        RrRunCons(j, answers, lo, n2.toServer);
        CleanlyTrans(j, n, n1, n2);
      } else {
        FinalAnswer(j, n, lo);
        assert Fed(j, n1, ps[1..]) == (n1, []);
        var none: seq<Packet> := [];
        assert none + none == none;
        assert Fed(j, n, ps) == (n1, none + none);
        EmptyRrRun(j, lo, n1.toServer);
      }
    }
  }

  lemma EmptyRrRun(j: Job, lo: nat, channel: set<Packet>)
    ensures RrRun(j, [], lo, channel)
  {
  }

  /** The last packet of the file is not answered. */
  lemma FinalAnswer(j: Job, n: Net, k: nat)
    requires j.Valid() && DataInv(j, n) && n.client.mode == C.RECV_PACKETS && k == j.Last() <= n.client.sequence
    ensures C.Step(j.ClientHost(), j.req, n.client, C.Turn(Arrive(Dat(j, k)), C.All, true, true)).1 == []
  {
    assert n.client.sequence == j.Last();
    AcceptOk(j, n.client, C.Turn(Arrive(Dat(j, k)), C.All, true, true));
  }

  lemma {:induction false} AnswersStay(j: Job, n: Net, ps: seq<Packet>)
    ensures n.toServer <= Fed(j, n, ps).0.toServer
    decreases |ps|
  {
    hide C.Step;
    if ps != [] && C.Live(n.client) {
      AnswersStay(j, Step(j, n, ClientGets(ps[0])), ps[1..]);
    }
  }

  // ----- rounds

  /** Each of them puts the REJ of the awaited packet in flight, and the client goes on. */
  lemma Prompted(j: Job, n: Net, e: Event)
    requires j.Valid() && DataInv(j, n) && n.client.mode == C.RECV_PACKETS && n.client.retries >= 1
    requires Prompts(j, n, e)
    ensures var n1 := Step(j, n, ClientHas(e));
      && CleanlyReaches(j, n, n1) && DataInv(j, n1)
      && n1.server == n.server
      && n1.client == n.client.(retries := n1.client.retries) && n1.client.retries >= 1
      && RejPkt(j.inCksum, n.client.sequence) in n1.toServer
  {
    var turn := C.Turn(e, C.All, true, true);
    OneAnswer(j, n.client, turn);
    if e.Arrive? {
      DatFields(j, e.p.sequence);
    }
    hide RejPkt, RrPkt, Dat;
    assert !Expected(j, n.client, e);
    UnexpectedOk(j, n.client, turn);
    CleanlyStep(j, n, ClientHas(e));
    ClientKeepsDataInv(j, n, turn);
  }

  /**
   * A round is a run of the system, whatever prompts it. If the window holds the last packet it completes the transfer;
   * otherwise it leaves both sides ready for another round with the base a whole window further on.
   */
  lemma RoundProgress(j: Job, n: Net, e: Event)
    requires j.Valid() && DataInv(j, n) && n.client.mode == C.RECV_PACKETS && n.client.retries >= 1
    requires n.server.mode == S.WAIT_RR && n.server.retries >= 1 && Prompts(j, n, e)
    ensures var n1 := Round(j, n, e);
      && CleanlyReaches(j, n, n1) && DataInv(j, n1)
      && (BaseOf(n.server) + j.W() > j.Last() ==> n1.client.mode == C.DONE && n1.client.output == j.File())
      && (BaseOf(n.server) + j.W() <= j.Last() ==>
            Ready(n1) && n1.client.retries == 10 && BaseOf(n1.server) == BaseOf(n.server) + j.W())
  {
    var base := BaseOf(n.server);
    var n1 := Step(j, n, ClientHas(e));
    Prompted(j, n, e);
    ReadyBounds(j, n);
    ServedRej(j, n1, n.client.sequence);
    var n2 := Served(j, n1, RejPkt(j.inCksum, n.client.sequence));
    WindowIsDatRun(j, n2);
    FedRun(j, n2, n2.server.window, base);
    var (n3, answers) := Fed(j, n2, n2.server.window);
    ServedAllRrs(j, n3, answers);
    hide CleanlyReaches, DataInv, Step, Served, ServedAll, Fed, RrRun;
    CleanlyTrans(j, n, n1, n2);
    CleanlyTrans(j, n, n2, n3);
    CleanlyTrans(j, n, n3, ServedAll(j, n3, answers));
    if n3.client.mode == C.DONE {
      DoneIsFile(j, ServedAll(j, n3, answers));
    }
  }

  lemma ReadyBounds(j: Job, n: Net)
    requires j.Valid() && DataInv(j, n) && n.client.mode == C.RECV_PACKETS && S.Active(n.server)
    ensures 0 <= BaseOf(n.server) <= n.client.sequence <= j.Last() && j.Last() + j.W() < U32_SIZE
  {
  }

  lemma WindowIsDatRun(j: Job, n: Net)
    requires j.Valid() && DataInv(j, n) && n.server.mode == S.WAIT_RR && Elements(n.server.window) <= n.toClient
    ensures |n.server.window| == j.W() && BaseOf(n.server) >= 0
    ensures DatRun(j, n.server.window, BaseOf(n.server), n.toClient)
  {
    hide Dat;
    forall i | 0 <= i < |n.server.window|
      ensures n.server.window[i] in n.toClient
    {
      assert n.server.window[i] in Elements(n.server.window);
    }
  }

  /** The number of loss-free rounds that complete the transfer. */
  function RoundsLeft(j: Job, n: Net): int {
    if j.W() > 0 then (j.Last() - BaseOf(n.server)) / j.W() + 1 else 0
  }

  /** Exactly that many rounds complete it, whatever state they start from; every round before leaves it running. */
  lemma {:induction false} RoundsComplete(j: Job, n: Net, k: nat)
    requires j.Valid() && DataInv(j, n) && Ready(n)
    ensures RoundsLeft(j, n) >= 1
    ensures k <= RoundsLeft(j, n) ==> CleanlyReaches(j, n, Rounds(j, n, k)) && DataInv(j, Rounds(j, n, k))
    ensures k < RoundsLeft(j, n) ==> Ready(Rounds(j, n, k))
    ensures k == RoundsLeft(j, n) ==> Rounds(j, n, k).client.mode == C.DONE && Rounds(j, n, k).client.output == j.File()
    decreases k
  {
    hide DataInv, CleanlyReaches, Round, RoundsLeft, Job.Last;
    RoundsLeftBounds(j, n);
    if k == 0 {
      CleanlySelf(j, n);
    } else if k <= RoundsLeft(j, n) {
      var n1 := Round(j, n, Timeout);
      RoundProgress(j, n, Timeout);
      if RoundsLeft(j, n) == 1 {
        DoneIsFile(j, n1);
      } else {
        RoundsLeftStep(j, n, n1);
        RoundsComplete(j, n1, k - 1);
        CleanlyTrans(j, n, n1, Rounds(j, n, k));
      }
    }
  }

  lemma RoundsLeftBounds(j: Job, n: Net)
    requires j.Valid() && DataInv(j, n) && S.Active(n.server)
    ensures RoundsLeft(j, n) >= 1
    ensures RoundsLeft(j, n) == 1 <==> BaseOf(n.server) + j.W() > j.Last()
  {
    assert 0 <= j.Last() - BaseOf(n.server);
    var w, left := j.W(), j.Last() - BaseOf(n.server);
    hide Job.Last, BaseOf, DataInv, Job.Valid;
    DivMinus(left, w);
  }

  lemma RoundsLeftStep(j: Job, n: Net, n1: Net)
    requires j.Valid() && DataInv(j, n) && S.Active(n.server)
    requires BaseOf(n1.server) == BaseOf(n.server) + j.W()
    ensures RoundsLeft(j, n1) == RoundsLeft(j, n) - 1
  {
    assert 0 <= j.Last() - BaseOf(n.server);
    var w, left := j.W(), j.Last() - BaseOf(n.server);
    hide Job.Last, BaseOf, DataInv, Job.Valid;
    DivMinus(left, w);
    assert j.Last() - BaseOf(n1.server) == left - w;
  }

  lemma DivMinus(x: nat, w: nat)
    requires w > 0
    ensures (x - w) / w == x / w - 1
    ensures x / w == 0 <==> x < w
  {
    var q := x / w;
    assert x == q * w + x % w;
    assert x - w == (q - 1) * w + x % w;
    DivUnique(x - w, w, q - 1, x % w);
  }

  lemma DivUnique(x: int, w: nat, q: int, r: nat)
    requires w > 0 && x == q * w + r && r < w
    ensures x / w == q
  {
    var d := x / w - q;
    assert d * w == r - x % w;
  }

  lemma DoneIsFile(j: Job, n: Net)
    requires DataInv(j, n) && n.client.mode == C.DONE
    ensures n.client.output == j.File()
  {
  }

  /** Both sides are in the data phase, neither has given up, and the client outlives one more timeout. */
  predicate Patient(n: Net) {
    && n.client.mode == C.RECV_PACKETS && n.client.retries >= 2
    && S.Active(n.server) && n.server.retries >= 1
  }

  /** A patient state reaches one in which the server waits, without the client noticing. */
  lemma Settles(j: Job, n: Net) returns (n1: Net)
    requires j.Valid() && DataInv(j, n) && Patient(n)
    ensures CleanlyReaches(j, n, n1) && DataInv(j, n1) && Ready(n1) && BaseOf(n1.server) == BaseOf(n.server)
  {
    if n.server.mode == S.FILL_WINDOW {
      Refilled(j, n);
      n1 := Step(j, Step(j, n, ServerQuiet()), ServerQuiet());
    } else if n.server.mode == S.SEND_WINDOW {
      CleanlyStep(j, n, ServerQuiet());
      ServerKeepsDataInv(j, n, S.SILENCE);
      SendOk(j, n.server, S.NoFault);
      n1 := Step(j, n, ServerQuiet());
    } else {
      CleanlySelf(j, n);
      n1 := n;
    }
  }

  /**
   * Recoverability: from every state of the data phase that a clean run reaches from the fork through any losses,
   * duplicates, reorderings, errors and rewinds, in which neither side has given up and the client outlives one more
   * timeout, some continuation completes the transfer.
   */
  lemma AlwaysRecoverable(j: Job, n0: Net, n: Net)
    requires j.Valid() && j.OffsetsFit() && ForkStart(j, n0) && CleanlyReaches(j, n0, n) && Patient(n)
    ensures exists n' :: CleanlyReaches(j, n, n') && n'.client.mode == C.DONE && n'.client.output == j.File()
  {
    ReachesWholeInv(j, n0, n);
    var n1 := Settles(j, n);
    RoundsComplete(j, n1, 0);
    var k: nat := RoundsLeft(j, n1);
    RoundsComplete(j, n1, k);
    CleanlyTrans(j, n, n1, Rounds(j, n1, k));
  }

  /**
   * Going back: a packet ahead of the awaited one, which gives the loss of that away, prompts a round, even of a client
   * that has but one retry left. If the awaited packet is in the window it is written, and the client has ten retries.
   */
  lemma GapIsFilled(j: Job, n0: Net, n: Net, p: Packet)
    requires j.Valid() && j.OffsetsFit() && ForkStart(j, n0) && CleanlyReaches(j, n0, n)
    requires n.client.mode == C.RECV_PACKETS && n.client.retries >= 1
    requires n.server.mode == S.WAIT_RR && n.server.retries >= 1
    requires p in n.toClient && p.typ == PKT_TYPE_DAT && p.sequence > n.client.sequence
    ensures var n1 := Round(j, n, Arrive(p));
      && CleanlyReaches(j, n, n1)
      && if n1.client.mode == C.DONE then n1.client.output == j.File()
         else
           && n1.client.mode == C.RECV_PACKETS && n1.client.retries == 10
           && BaseOf(n1.server) == BaseOf(n.server) + j.W() <= n1.client.sequence
           && (n.client.sequence < BaseOf(n.server) + j.W() ==> n.client.sequence < n1.client.sequence)
  {
    hide CleanlyReaches, WholeInv, DataInv, Round, Step, Job.Valid, Job.OffsetsFit, Job.Last;
    ReachesWholeInv(j, n0, n);
    WaitsInDataPhase(j, n);
    DownOk(j, n, p);
    DataIsFile(j, p);
    RoundProgress(j, n, Arrive(p));
    var n1 := Round(j, n, Arrive(p));
    if n1.client.mode == C.RECV_PACKETS {
      ReadyBounds(j, n1);
    }
  }

  lemma WaitsInDataPhase(j: Job, n: Net)
    requires WholeInv(j, n) && n.server.mode == S.WAIT_RR
    ensures DataInv(j, n)
  {
  }

  lemma DataIsFile(j: Job, p: Packet)
    requires ToClientOk(j, p) && p.typ == PKT_TYPE_DAT
    ensures FilePacket(j, p)
  {
    ControlFields(j.inCksum, p.sequence);
    hide FilePacket, RrPkt, RejPkt;
  }

  // ----- rewinding

  /** Both sides are ready and level at packet `k`. */
  ghost predicate Level(j: Job, n: Net, k: nat) {
    DataInv(j, n) && Ready(n) && n.client.sequence == k && BaseOf(n.server) == k
  }

  /** A timeout, a resent window of which the first packet arrives, and its RR: one packet on, two answers in flight. */
  lemma Lockstep(j: Job, n: Net, k: nat) returns (n4: Net)
    requires j.Valid() && Level(j, n, k) && k < j.Last()
    ensures CleanlyReaches(j, n, n4) && Level(j, n4, k + 1)
    ensures RejPkt(j.inCksum, k) in n4.toServer && RrPkt(j.inCksum, k) in n4.toServer
  {
    var n1 := Step(j, n, ClientHas(Timeout));
    Prompted(j, n, Timeout);
    ServedRej(j, n1, k);
    var n2 := Served(j, n1, RejPkt(j.inCksum, k));
    WindowIsDatRun(j, n2);
    DatRunTail(j, n2.server.window, k, n2.toClient);
    hide CleanlyReaches, DataInv, Step, Served, RrPkt, RejPkt, Dat, C.Step, DatRun;
    var n3 := Step(j, n2, ClientGets(Dat(j, k)));
    FedOne(j, n2, k);
    ServedRr(j, n3);
    n4 := Served(j, n3, RrPkt(j.inCksum, k));
    CleanlyTrans(j, n, n1, n2);
    CleanlyTrans(j, n, n2, n3);
    CleanlyTrans(j, n, n3, n4);
  }

  lemma {:induction false} LockstepTo(j: Job, n: Net, k: nat, m: nat) returns (n': Net)
    requires j.Valid() && Level(j, n, k) && k <= m < j.Last()
    ensures CleanlyReaches(j, n, n') && Level(j, n', m + 1)
    ensures RejPkt(j.inCksum, m) in n'.toServer && RrPkt(j.inCksum, m) in n'.toServer
    decreases m - k
  {
    hide Level, CleanlyReaches, RejPkt, RrPkt;
    var n1 := Lockstep(j, n, k);
    if k == m {
      n' := n1;
    } else {
      n' := LockstepTo(j, n1, k + 1, m);
      CleanlyTrans(j, n, n1, n');
    }
  }

  /** A clean run from the fork makes both sides level at packet 0. */
  lemma StartsLevel(j: Job, n0: Net) returns (n2: Net)
    requires j.Valid() && ForkStart(j, n0)
    ensures CleanlyReaches(j, n0, n2) && Level(j, n2, 0)
  {
    var n1 := HandshakeCompletes(j, n0);
    Refilled(j, n1);
    n2 := Step(j, Step(j, n1, ServerQuiet()), ServerQuiet());
    CleanlyTrans(j, n0, n1, n2);
    hide CleanlyReaches, DataInv, Step;
  }

  /** A clean run from the fork makes both sides level just past packet `m`, its answers left behind. */
  lemma LeavesBehind(j: Job, n0: Net, m: nat) returns (n: Net)
    requires j.Valid() && ForkStart(j, n0) && m < j.Last()
    ensures CleanlyReaches(j, n0, n) && Level(j, n, m + 1)
    ensures RejPkt(j.inCksum, m) in n.toServer && RrPkt(j.inCksum, m) in n.toServer
  {
    var n1 := StartsLevel(j, n0);
    n := LockstepTo(j, n1, 0, m);
    CleanlyTrans(j, n0, n1, n);
  }

  /**
   * Over the reordering network the rewind is live for every packet before the last: a clean run from the fork leads to
   * a waiting server that a delayed REJ(m) sends back below its window.
   */
  lemma RewindsHappen(j: Job, n0: Net, m: nat) returns (n: Net)
    requires j.Valid() && ForkStart(j, n0) && m < j.Last()
    ensures CleanlyReaches(j, n0, n) && DataInv(j, n) && n.server.mode == S.WAIT_RR && n.server.retries >= 1
    ensures RejPkt(j.inCksum, m) in n.toServer && Rewinds(j, n.server, Arrive(RejPkt(j.inCksum, m)))
  {
    n := LeavesBehind(j, n0, m);
    ControlFields(j.inCksum, m);
  }
}
