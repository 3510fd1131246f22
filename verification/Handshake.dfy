/** The handshake between client and child, from the fork on, over the same channels as the data phase. */
module Handshake {
  import opened Packets
  import opened Transfers
  import opened Network
  import S = ServerSpec
  import C = ClientSpec

  /** `Run` has forked the child: the client has sent packet 1 and the listener has answered it. */
  predicate ForkStart(j: Job, n: Net) {
    && n.server == S.Forked()
    && n.client == C.Constructed().(index := 1)
    && n.toClient == {RrPkt(j.inCksum, 1)}
    && n.toServer == {}
  }

  /** The client's half of it: a new client whose connection request is answered by RR(0) has sent packets 0 and 1. */
  lemma ForkStartReached(j: Job, p: Packet)
    requires Intact(j.inCksum, p) && p.typ == PKT_TYPE_RR && p.sequence == 0
    ensures var (c0, first) := C.InitSend(j.ClientHost(), j.req, C.Constructed(), 0, true);
      var (c, later) := C.InitStep(j.ClientHost(), j.req, c0, C.Turn(Arrive(p), C.All, true, true));
      && first == [C.InitPkt(j.inCksum, j.req, 0)] && later == [C.InitPkt(j.inCksum, j.req, 1)]
      && ForkStart(j, Net(S.Forked(), c, {RrPkt(j.inCksum, 1)}, {}))
  {
    hide C.InitPkt, RrPkt, Intact;
  }

  /** The parameters the server has taken so far are the client's, cut to 16 bits, and come in the client's order. */
  predicate Agreed(j: Job, s: S.Server) {
    && 1 <= s.sequence <= 4
    && (s.flags.bufszSet <==> s.sequence >= 3)
    && (s.flags.winszSet <==> s.sequence >= 4)
    && !s.flags.fnSet
    && (s.flags.bufszSet ==> s.bufferSize == j.req.bufferSize % U16_SIZE)
    && (s.flags.winszSet ==> s.windowSize == j.req.windowSize % U16_SIZE)
    && s.window == [] && s.outBuf == []
  }

  /** The client is in its handshake, or waits for the first packet of the file. */
  predicate Unstarted(c: C.Client) {
    && c.mode != C.DONE && c.sequence == 0 && c.output == []
    && (c.mode == C.INIT ==> c.index < C.INIT_PACKETS)
  }

  /** From client to child: packets of the handshake no further than `lead`, and the REJ of a client that waits. */
  predicate RequestOk(j: Job, lead: nat, p: Packet) {
    || (p.sequence < C.INIT_PACKETS && p.sequence <= lead && p == C.InitPkt(j.inCksum, j.req, p.sequence))
    || p == RejPkt(j.inCksum, 0)
  }

  /** From child to client: answers with the child's own numbers. */
  predicate ReplyOk(j: Job, sequence: nat, p: Packet) {
    Control(j, p) && 1 <= p.sequence <= sequence
  }

  /** While the child is in `init`: agreement so far, and the client at most one packet ahead. */
  predicate HandshakeInv(j: Job, n: Net) {
    && n.server.mode == S.INIT && n.server.retries > 0
    && Agreed(j, n.server) && Unstarted(n.client)
    && (n.client.mode == C.INIT ==> n.client.index <= n.server.sequence + 1)
    && (n.client.mode == C.RECV_PACKETS ==> n.server.sequence == 4)
    && (forall p :: p in n.toClient ==> ReplyOk(j, n.server.sequence, p))
    && (forall p :: p in n.toServer ==> RequestOk(j, n.server.sequence + 1, p))
  }

  /** The child has left `init`, with an error or with everything it needs. */
  predicate HandedOver(j: Job, n: Net) {
    && (n.server.mode == S.ERROR || (n.server.mode == S.FILL_WINDOW && n.server.sequence == 0 && n.server.offset == 0
          && n.server.retries == PKT_TRNSMAX
          && n.server.fromName == j.req.fromName && n.server.file == j.File()
          && n.server.bufferSize == j.req.bufferSize % U16_SIZE && n.server.windowSize == j.req.windowSize % U16_SIZE
          && n.server.window == [] && n.server.outBuf == []))
    && Unstarted(n.client)
    && (forall p :: p in n.toClient ==> ReplyOk(j, 4, p))
    && (forall p :: p in n.toServer ==> RequestOk(j, 5, p))
  }

  /** The file name fits its packet and its terminator, and contains no other NUL. */
  predicate NameFits(j: Job) {
    |j.req.fromName| < PKT_DMAX && 0 !in j.req.fromName
  }

  lemma NameArrives(j: Job)
    requires NameFits(j)
    ensures CString(C.InitPkt(j.inCksum, j.req, 4).data) == j.req.fromName
  {
    var name := j.req.fromName;
    var rest := seq(PKT_DMAX - |name| - 1, _ => PKT_TYPE_FLN);
    CStringRoundTrip(name, rest);
    assert C.NameData(name) == name + [0] + rest;
  }

  lemma InitPktFields(j: Job, i: nat)
    requires i < C.INIT_PACKETS
    ensures var p := C.InitPkt(j.inCksum, j.req, i);
      && p.sequence == i && Intact(j.inCksum, p)
      && p.typ == [PKT_TYPE_CXN, PKT_TYPE_CXN2, PKT_TYPE_BUF, PKT_TYPE_WIN, PKT_TYPE_FLN][i]
      && (i == 2 ==> p.size == j.req.bufferSize % U16_SIZE)
      && (i == 3 ==> p.size == j.req.windowSize % U16_SIZE)
  {
  }

  /** Taking the awaited packet of the client moves the agreement one parameter on. */
  lemma IntakeAgrees(j: Job, s: S.Server)
    requires Agreed(j, s) && (s.sequence == 4 ==> NameFits(j))
    ensures var s1 := S.Intake(s, C.InitPkt(j.inCksum, j.req, s.sequence));
      && s1.sequence == s.sequence + 1 && s1.mode == s.mode && s1.retries == s.retries
      && s1.window == [] && s1.outBuf == []
      && (s.sequence < 4 ==> Agreed(j, s1))
      && (s.sequence == 4 ==>
            && s1.flags == S.Flags(true, true, true)
            && s1.fromName == j.req.fromName
            && s1.bufferSize == j.req.bufferSize % U16_SIZE && s1.windowSize == j.req.windowSize % U16_SIZE)
  {
    InitPktFields(j, s.sequence);
    if s.sequence == 4 {
      NameArrives(j);
    }
    hide C.InitPkt, CString;
  }

  /** What one pass of `init` makes of the child and sends, if it hears only what this client can say. */
  lemma InitPassAgrees(j: Job, s: S.Server, turn: S.Turn)
    requires NameFits(j) && s.mode == S.INIT && s.retries > 0 && Agreed(j, s)
    requires turn.event.Arrive? && Intact(j.inCksum, turn.event.p) ==> RequestOk(j, s.sequence + 1, turn.event.p)
    ensures var (s1, sent) := S.InitStep(j.ServerHost(), s, turn);
      && (s1.mode == S.INIT ==> Agreed(j, s1) && s.sequence <= s1.sequence && s1.retries > 0)
      && (s1.mode != S.INIT && s1.mode != S.ERROR ==>
            && s1.mode == S.FILL_WINDOW && s1.sequence == 0 && s1.offset == 0 && s1.retries == PKT_TRNSMAX
            && s1.fromName == j.req.fromName && j.req.fromName in j.files && s1.file == j.File()
            && s1.bufferSize == j.req.bufferSize % U16_SIZE && s1.windowSize == j.req.windowSize % U16_SIZE
            && s1.window == [] && s1.outBuf == [])
      && forall p :: p in sent ==> ReplyOk(j, s.sequence, p)
  {
    ControlFields(j.inCksum, s.sequence);
    ControlFields(j.inCksum, 0);
    hide RrPkt, RejPkt, C.InitPkt, S.Intake, CString;
    IntakeAgrees(j, s.(retries := PKT_TRNSMAX));
  }

  /** What the client makes of an answer while it is in `init`, or waits in vain for the file. */
  lemma ClientPassOk(j: Job, c: C.Client, sequence: nat, turn: C.Turn)
    requires C.Live(c) && Unstarted(c) && 1 <= sequence <= 4 && (c.mode == C.INIT ==> c.index <= sequence + 1)
    requires turn.event.Arrive? && Intact(j.inCksum, turn.event.p) ==> ReplyOk(j, sequence, turn.event.p)
    ensures var (c1, sent) := C.Step(j.ClientHost(), j.req, c, turn);
      && Unstarted(c1) && (c1.mode == C.INIT ==> c1.index <= sequence + 1)
      && (c1.mode == C.RECV_PACKETS ==> c.mode == C.RECV_PACKETS || sequence == 4)
      && forall p :: p in sent ==> RequestOk(j, sequence + 1, p)
  {
    forall i: nat | i < C.INIT_PACKETS {
      InitPktFields(j, i);
    }
    if turn.event.Arrive? {
      ControlFields(j.inCksum, turn.event.p.sequence);
    }
    hide RrPkt, RejPkt, C.InitPkt, Intact;
  }

  lemma RequestOkMono(j: Job, lead: nat, more: nat, p: Packet)
    requires RequestOk(j, lead, p) && lead <= more
    ensures RequestOk(j, more, p)
  {
  }

  lemma ServerKeepsHandshake(j: Job, n: Net, turn: S.Turn)
    requires NameFits(j) && HandshakeInv(j, n) && Enabled(j, n, ServerActs(turn))
    ensures var n1 := Step(j, n, ServerActs(turn));
      if n1.server.mode == S.INIT then HandshakeInv(j, n1) else HandedOver(j, n1)
  {
    InitPassAgrees(j, n.server, turn);
    hide RrPkt, RejPkt, C.InitPkt, S.InitStep, Control, RequestOk;
    var n1 := Step(j, n, ServerActs(turn));
    if n1.server.mode == S.INIT {
      forall p | p in n.toServer
        ensures RequestOk(j, n1.server.sequence + 1, p)
      {
        RequestOkMono(j, n.server.sequence + 1, n1.server.sequence + 1, p);
      }
    } else {
      forall p | p in n.toServer
        ensures RequestOk(j, 5, p)
      {
        RequestOkMono(j, n.server.sequence + 1, 5, p);
      }
    }
  }

  lemma ClientKeepsHandshake(j: Job, n: Net, turn: C.Turn)
    requires HandshakeInv(j, n) && Enabled(j, n, ClientActs(turn))
    ensures HandshakeInv(j, Step(j, n, ClientActs(turn)))
  {
    hide RrPkt, RejPkt, C.InitPkt, C.Step, Control, RequestOk;
    ClientPassOk(j, n.client, n.server.sequence, turn);
  }

  // ----- what holds in every state reached from the fork

  /** In `init` the handshake invariant; after it the client's parameters. */
  predicate ForkInv(j: Job, n: Net) {
    && (n.server.mode == S.INIT ==> HandshakeInv(j, n))
    && (S.Active(n.server) ==>
          && n.server.fromName == j.req.fromName && n.server.file == j.File()
          && n.server.bufferSize == j.req.bufferSize % U16_SIZE && n.server.windowSize == j.req.windowSize % U16_SIZE)
  }

  /** Nothing in the data phase touches the parameters, and nothing leads back to `init`. */
  lemma ParametersStay(h: S.Host, s: S.Server, turn: S.Turn)
    requires S.Active(s)
    ensures var s1 := S.Step(h, s, turn).0;
      && s1.mode != S.INIT
      && s1.fromName == s.fromName && s1.file == s.file
      && s1.bufferSize == s.bufferSize && s1.windowSize == s.windowSize
  {
    S.FillMode(h, s, turn.fault);
    S.FillFrame(h, s, turn.fault);
  }

  lemma {:induction false} RunKeepsForkInv(j: Job, n: Net, acts: seq<Action>, n': Net)
    requires NameFits(j) && ForkInv(j, n) && Runs(j, n, acts, n')
    ensures ForkInv(j, n')
    decreases |acts|
  {
    if acts != [] {
      match acts[0] {
        case ServerActs(turn) =>
          if n.server.mode == S.INIT {
            ServerKeepsHandshake(j, n, turn);
          } else if S.Active(n.server) {
            ParametersStay(j.ServerHost(), n.server, turn);
          }
        case ClientActs(turn) =>
          if n.server.mode == S.INIT {
            ClientKeepsHandshake(j, n, turn);
          }
      }
      hide S.Step, HandshakeInv, HandedOver, Enabled;
      RunKeepsForkInv(j, Step(j, n, acts[0]), acts[1..], n');
    }
  }

  lemma ForkStartOk(j: Job, n: Net)
    requires ForkStart(j, n)
    ensures ForkInv(j, n)
  {
  }

  /** Every packet the child has taken since the fork was sent by the client since the fork. */
  predicate HasSent(j: Job, n: Net) {
    && (n.server.mode == S.INIT ==>
          forall i: nat :: 1 <= i < 5 && i < n.server.sequence ==> C.InitPkt(j.inCksum, j.req, i) in n.toServer)
    && (S.Active(n.server) ==> forall i: nat :: 1 <= i < 5 ==> C.InitPkt(j.inCksum, j.req, i) in n.toServer)
  }

  /** The number moves on, and `init` ends well, only with the packet of the client that carries the awaited number. */
  lemma PassTakes(j: Job, s: S.Server, turn: S.Turn)
    requires NameFits(j) && s.mode == S.INIT && s.retries > 0 && Agreed(j, s)
    requires turn.event.Arrive? && Intact(j.inCksum, turn.event.p) ==> RequestOk(j, s.sequence + 1, turn.event.p)
    ensures var s1 := S.InitStep(j.ServerHost(), s, turn).0;
      var taken := turn.event.Arrive? && turn.event.p == C.InitPkt(j.inCksum, j.req, s.sequence);
      && (s1.mode == S.INIT ==> s1.sequence == s.sequence || (s1.sequence == s.sequence + 1 && taken))
      && (s1.mode != S.INIT && s1.mode != S.ERROR ==> s.sequence == 4 && taken)
  {
    ControlFields(j.inCksum, 0);
    hide RrPkt, RejPkt, C.InitPkt, S.Intake, CString;
    IntakeAgrees(j, s.(retries := PKT_TRNSMAX));
  }

  lemma ServerKeepsHasSent(j: Job, n: Net, turn: S.Turn)
    requires NameFits(j) && ForkInv(j, n) && HasSent(j, n) && Enabled(j, n, ServerActs(turn))
    ensures HasSent(j, Step(j, n, ServerActs(turn)))
  {
    if n.server.mode == S.INIT {
      forall i: nat | i < 5 {
        InitPktFields(j, i);
      }
      PassTakes(j, n.server, turn);
      hide RrPkt, RejPkt, C.InitPkt, S.InitStep, Control, RequestOk;
    } else if S.Active(n.server) {
      ParametersStay(j.ServerHost(), n.server, turn);
      hide S.Step, C.InitPkt;
    }
  }

  lemma {:induction false} RunKeepsHasSent(j: Job, n: Net, acts: seq<Action>, n': Net)
    requires NameFits(j) && ForkInv(j, n) && HasSent(j, n) && Runs(j, n, acts, n')
    ensures HasSent(j, n')
    decreases |acts|
  {
    if acts != [] {
      var n1 := Step(j, n, acts[0]);
      RunKeepsForkInv(j, n, [acts[0]], n1) by {
        RunsOne(j, n, acts[0]);
      }
      assert HasSent(j, n1) by {
        match acts[0] {
          case ServerActs(turn) => ServerKeepsHasSent(j, n, turn);
          case ClientActs(turn) => hide C.Step, C.InitPkt;
        }
      }
      hide Step, ForkInv, HasSent, Enabled;
      RunKeepsHasSent(j, n1, acts[1..], n');
    }
  }

  /**
   * Nothing is taken for granted: in every run from the fork, a child that waits for packet q has been sent packets 1
   * to q - 1, and a child in the data phase all of them, the packet 1 that the listener had answered included.
   */
  lemma TakesWhatWasSent(j: Job, n0: Net, n: Net, i: nat)
    requires NameFits(j) && ForkStart(j, n0) && Reaches(j, n0, n) && 1 <= i < 5
    ensures n.server.mode == S.INIT && i < n.server.sequence ==> C.InitPkt(j.inCksum, j.req, i) in n.toServer
    ensures S.Active(n.server) ==> C.InitPkt(j.inCksum, j.req, i) in n.toServer
  {
    ForkStartOk(j, n0);
    var acts :| Runs(j, n0, acts, n);
    RunKeepsHasSent(j, n0, acts, n);
    hide C.InitPkt;
  }

  /**
   * Lead bound: while the child is in `init`, the client's packet index is at most one ahead of the child's number,
   * and so is every handshake packet in flight, and a client that is past its handshake has left the child waiting for
   * packet 4, through losses, duplicates, go-backs and skipped answers.
   */
  lemma LeadBound(j: Job, n0: Net, n: Net, p: Packet)
    requires NameFits(j) && ForkStart(j, n0) && Reaches(j, n0, n) && n.server.mode == S.INIT
    ensures n.client.mode == C.INIT ==> n.client.index <= n.server.sequence + 1
    ensures n.client.mode == C.RECV_PACKETS ==> n.server.sequence == 4
    ensures n.client.mode != C.DONE && n.client.sequence == 0 && n.client.output == []
    ensures p in n.toServer ==> p.sequence <= n.server.sequence + 1
  {
    ForkStartOk(j, n0);
    var acts :| Runs(j, n0, acts, n);
    RunKeepsForkInv(j, n0, acts, n);
    ControlFields(j.inCksum, 0);
    hide RejPkt;
    assert p in n.toServer ==> RequestOk(j, n.server.sequence + 1, p);
  }

  /**
   * Agreement: the child holds a parameter exactly when its number has passed the packet that carries it, the values
   * are the client's cut to 16 bits, and a child in the data phase has all of them, with the file it was asked for.
   */
  lemma HandshakeAgreement(j: Job, n0: Net, n: Net)
    requires NameFits(j) && ForkStart(j, n0) && Reaches(j, n0, n)
    ensures n.server.mode == S.INIT ==>
      && (n.server.flags.bufszSet <==> n.server.sequence >= 3)
      && (n.server.flags.winszSet <==> n.server.sequence >= 4)
      && (n.server.flags.fnSet <==> n.server.sequence >= 5)
      && (n.server.flags.bufszSet ==> n.server.bufferSize == j.req.bufferSize % U16_SIZE)
      && (n.server.flags.winszSet ==> n.server.windowSize == j.req.windowSize % U16_SIZE)
    ensures S.Active(n.server) ==>
      && n.server.fromName == j.req.fromName && n.server.file == j.File()
      && n.server.bufferSize == j.req.bufferSize % U16_SIZE && n.server.windowSize == j.req.windowSize % U16_SIZE
  {
    ForkStartOk(j, n0);
    var acts :| Runs(j, n0, acts, n);
    RunKeepsForkInv(j, n0, acts, n);
  }
}
