/**
 * The whole transfer over the reordering network, from the fork: what every clean run keeps, which runs are clean, and
 * a handshake that succeeds.
 */
module EndToEnd {
  import opened Packets
  import opened Chunks
  import opened Transfers
  import opened Network
  import opened Handshake
  import S = ServerSpec
  import C = ClientSpec

  // ----- from the handshake to the data phase

  /** In the handshake its invariant, after it that of the data phase. */
  ghost predicate WholeInv(j: Job, n: Net) {
    if n.server.mode == S.INIT then HandshakeInv(j, n) else DataInv(j, n)
  }

  lemma ValidNameFits(j: Job)
    requires j.Valid()
    ensures NameFits(j)
    ensures j.req.bufferSize % U16_SIZE == j.B() && j.req.windowSize % U16_SIZE == j.W()
  {
  }

  lemma UnstartedOk(j: Job, c: C.Client)
    requires j.Valid() && Unstarted(c)
    ensures ClientOk(j, c) && Stored(j, c) == 0
  {
  }

  lemma RequestIsAnswer(j: Job, p: Packet)
    requires RequestOk(j, 5, p)
    ensures AnswerOk(j, 0, p)
  {
  }

  /** The handshake hands over a state of the data phase, its own answers still in flight. */
  lemma HandoverOk(j: Job, n: Net)
    requires j.Valid() && HandedOver(j, n)
    ensures DataInv(j, n)
  {
    ValidNameFits(j);
    UnstartedOk(j, n.client);
    forall p | p in n.toServer
      ensures AnswerOk(j, Stored(j, n.client), p)
    {
      RequestIsAnswer(j, p);
    }
    hide RequestOk, Dat, Control, AnswerOk;
  }

  /** The fields of a child that has its parameters and is about to read the file. */
  predicate ReadyToFill(j: Job, s: S.Server) {
    && s.mode == S.FILL_WINDOW && s.sequence == 0 && s.offset == 0 && s.retries == PKT_TRNSMAX
    && s.bufferSize == j.B() && s.windowSize == j.W() && s.file == j.File()
    && s.window == [] && s.outBuf == []
  }

  lemma ForkIsWhole(j: Job, n0: Net)
    requires ForkStart(j, n0)
    ensures WholeInv(j, n0)
  {
    ForkStartOk(j, n0);
  }

  lemma ServerKeepsWholeInv(j: Job, n: Net, turn: S.Turn)
    requires j.Valid() && WholeInv(j, n) && Enabled(j, n, ServerActs(turn))
    requires n.server.mode == S.INIT || !Overruns(j, n.server, turn.event)
    ensures WholeInv(j, Step(j, n, ServerActs(turn)))
    ensures Step(j, n, ServerActs(turn)).client == n.client
  {
    hide S.Step, HandshakeInv, HandedOver, DataInv, Enabled;
    if n.server.mode == S.INIT {
      ValidNameFits(j);
      ServerKeepsHandshake(j, n, turn);
      var n1 := Step(j, n, ServerActs(turn));
      if n1.server.mode != S.INIT {
        HandoverOk(j, n1);
        LeftInit(j, n1);
      }
    } else {
      ServerKeepsDataInv(j, n, turn);
      LeftInit(j, Step(j, n, ServerActs(turn)));
    }
  }

  lemma LeftInit(j: Job, n: Net)
    requires DataInv(j, n)
    ensures n.server.mode != S.INIT && ClientOk(j, n.client)
  {
  }

  lemma ClientKeepsWholeInv(j: Job, n: Net, turn: C.Turn)
    requires j.Valid() && WholeInv(j, n) && Enabled(j, n, ClientActs(turn)) && !Misled(j, n, ClientActs(turn))
    ensures var n1 := Step(j, n, ClientActs(turn));
      && WholeInv(j, n1)
      && n.client.output <= n1.client.output && Stored(j, n.client) <= Stored(j, n1.client)
  {
    hide C.Step, HandedOver, Enabled, Stored;
    if n.server.mode == S.INIT {
      ClientKeepsHandshake(j, n, turn);
      UnstartedOk(j, n.client);
      UnstartedOk(j, Step(j, n, ClientActs(turn)).client);
    } else {
      ClientKeepsDataInv(j, n, turn);
    }
    hide HandshakeInv, DataInv, Misled;
  }

  lemma WholeInvOk(j: Job, n: Net)
    requires j.Valid() && WholeInv(j, n)
    ensures ClientOk(j, n.client)
    ensures n.server.mode == S.INIT ==> n.client.sequence == 0
  {
    if n.server.mode == S.INIT {
      UnstartedOk(j, n.client);
    }
  }

  lemma ServerIsSafe(j: Job, n: Net, turn: S.Turn)
    requires j.Valid() && j.OffsetsFit() && WholeInv(j, n)
    ensures n.server.mode == S.INIT || !Overruns(j, n.server, turn.event)
  {
    if n.server.mode != S.INIT {
      NoOverrun(j, n, turn);
    }
  }

  lemma {:induction false} RunKeepsWholeInv(j: Job, n: Net, acts: seq<Action>, n': Net)
    requires j.Valid() && j.OffsetsFit() && WholeInv(j, n) && Runs(j, n, acts, n') && Clean(j, n, acts)
    ensures WholeInv(j, n')
    ensures n.client.output <= n'.client.output && Stored(j, n.client) <= Stored(j, n'.client)
    decreases |acts|
  {
    hide Enabled, WholeInv, Stored, Misled;
    if acts != [] {
      match acts[0] {
        case ServerActs(turn) =>
          ServerIsSafe(j, n, turn);
          ServerKeepsWholeInv(j, n, turn);
        case ClientActs(turn) => ClientKeepsWholeInv(j, n, turn);
      }
      hide Step;
      RunKeepsWholeInv(j, Step(j, n, acts[0]), acts[1..], n');
    }
  }

  // ----- what holds in every state that a clean run reaches from the fork

  lemma ReachesWholeInv(j: Job, n0: Net, n: Net)
    requires j.Valid() && j.OffsetsFit() && ForkStart(j, n0) && CleanlyReaches(j, n0, n)
    ensures WholeInv(j, n) && ClientOk(j, n.client)
  {
    ForkIsWhole(j, n0);
    var acts :| Runs(j, n0, acts, n) && Clean(j, n0, acts);
    RunKeepsWholeInv(j, n0, acts, n);
    WholeInvOk(j, n);
  }

  /**
   * Delivery: whatever is dropped, duplicated, reordered or corrupted, and however often the server times out,
   * resends or rewinds, the output is the file up to the packet the client waits for, and on DONE it is the file.
   */
  lemma DeliveredPrefix(j: Job, n0: Net, n: Net)
    requires j.Valid() && j.OffsetsFit() && ForkStart(j, n0) && CleanlyReaches(j, n0, n)
    ensures n.client.mode == C.RECV_PACKETS ==>
      n.client.output == j.File()[..Min(n.client.sequence * j.B(), |j.File()|)]
    ensures n.client.mode == C.DONE ==> n.client.output == j.File()
    ensures n.client.output <= j.File()
  {
    hide CleanlyReaches, WholeInv;
    ReachesWholeInv(j, n0, n);
    PrefixMono(j.File(), j.B(), Stored(j, n.client), Stored(j, n.client));
  }

  /** The output never shrinks or changes: whatever a clean run adds later extends what was there. */
  lemma OutputGrows(j: Job, n0: Net, n: Net, n': Net)
    requires j.Valid() && j.OffsetsFit() && ForkStart(j, n0)
    requires CleanlyReaches(j, n0, n) && CleanlyReaches(j, n, n')
    ensures n.client.output <= n'.client.output && Stored(j, n.client) <= Stored(j, n'.client)
  {
    ReachesWholeInv(j, n0, n);
    var acts :| Runs(j, n, acts, n') && Clean(j, n, acts);
    RunKeepsWholeInv(j, n, acts, n');
  }

  /** What may be on its way to the child while it is in `init` acknowledges nothing. */
  lemma AnswersSound(j: Job, n: Net, p: Packet)
    requires j.Valid() && WholeInv(j, n) && p in n.toServer
    ensures AnswerOk(j, Stored(j, n.client), p)
  {
    if n.server.mode == S.INIT {
      RequestOkMono(j, n.server.sequence + 1, 5, p);
      RequestIsAnswer(j, p);
      UnstartedOk(j, n.client);
    }
  }

  lemma ActiveIsBehind(j: Job, n: Net)
    requires WholeInv(j, n) && S.Active(n.server)
    ensures Behind(j, n.server, Stored(j, n.client)) && S.Base(n.server) == BaseOf(n.server)
  {
    FrontIsBase(j, n.server);
  }

  /**
   * Ack soundness: RR(k) is in flight only if packet k has been written, REJ(k) only if all packets below k have,
   * and a packet has left the server's window only if the client has written it. `Stored` counts packets, so this
   * holds of the empty last packet too; what is stored is the file up to there.
   */
  lemma AckSoundness(j: Job, n0: Net, n: Net, p: Packet)
    requires j.Valid() && j.OffsetsFit() && ForkStart(j, n0) && CleanlyReaches(j, n0, n)
    ensures Stored(j, n.client) <= n.client.sequence && n.client.output == Upto(j, Stored(j, n.client))
    ensures p in n.toServer && p.typ == PKT_TYPE_RR ==>
      p.sequence < Stored(j, n.client) && Upto(j, p.sequence + 1) <= n.client.output
    ensures p in n.toServer && p.typ == PKT_TYPE_REJ ==>
      p.sequence <= Stored(j, n.client) && Upto(j, p.sequence) <= n.client.output
    ensures S.Active(n.server) ==>
      && S.Base(n.server) == BaseOf(n.server) <= Stored(j, n.client)
      && Upto(j, S.Base(n.server)) <= n.client.output
  {
    hide Prefix, Dat, Job.Last, CleanlyReaches, WholeInv;
    ReachesWholeInv(j, n0, n);
    var stored := Stored(j, n.client);
    StoredBounds(j, n.client);
    hide Stored;
    if p in n.toServer {
      AnswersSound(j, n, p);
      if p.typ == PKT_TYPE_RR {
        PrefixMono(j.File(), j.B(), p.sequence + 1, stored);
      } else if p.typ == PKT_TYPE_REJ {
        PrefixMono(j.File(), j.B(), p.sequence, stored);
      }
    }
    if S.Active(n.server) {
      ActiveIsBehind(j, n);
      PrefixMono(j.File(), j.B(), S.Base(n.server), stored);
    }
  }

  /**
   * The end-of-file bound: the final packet is never acknowledged away, the next number never passes it by more than
   * a window, and the product given to `lseek` lies inside the file; neither wraps at 32 bits.
   */
  lemma NothingWraps(j: Job, n0: Net, n: Net, e: Event)
    requires j.Valid() && j.OffsetsFit() && ForkStart(j, n0) && CleanlyReaches(j, n0, n) && S.Active(n.server)
    ensures BaseOf(n.server) <= j.Last()
    ensures n.server.sequence <= j.Last() + j.W() < U32_SIZE
    ensures Deliverable(j, e, n.toServer) && Rewinds(j, n.server, e) ==>
      n.server.bufferSize * e.p.sequence <= |j.File()| && n.server.bufferSize * e.p.sequence < U32_SIZE
  {
    ReachesWholeInv(j, n0, n);
    if Deliverable(j, e, n.toServer) && Rewinds(j, n.server, e) {
      OffsetFits(j, e.p.sequence);
    }
  }

  /** What may be on its way to the client: packets of the file and control packets. */
  lemma DownOk(j: Job, n: Net, p: Packet)
    requires WholeInv(j, n) && p in n.toClient
    ensures ToClientOk(j, p)
  {
    hide Control, FilePacket;
  }

  /**
   * Retransmission: any two data packets ever sent with the same number are the same packet, whether they come from
   * the window or were read again after a rewind.
   */
  lemma RetransmissionsAgree(j: Job, n0: Net, n: Net, p: Packet, q: Packet)
    requires j.Valid() && j.OffsetsFit() && ForkStart(j, n0) && CleanlyReaches(j, n0, n)
    requires p in n.toClient && q in n.toClient
    requires p.typ == PKT_TYPE_DAT && q.typ == PKT_TYPE_DAT && p.sequence == q.sequence
    ensures p == q
  {
    hide CleanlyReaches, WholeInv;
    ReachesWholeInv(j, n0, n);
    DownOk(j, n, p);
    DownOk(j, n, q);
    ControlFields(j.inCksum, p.sequence);
    hide Dat;
  }

  // ----- which runs are clean

  /** Written in place of a packet of the file, an answer of the handshake spoils the output: it is far too long. */
  lemma MisledIsWrong(j: Job, n: Net, a: Action)
    requires j.Valid() && WholeInv(j, n) && Enabled(j, n, a) && Misled(j, n, a)
    ensures !ClientOk(j, Step(j, n, a).client)
  {
    var c, p := n.client, a.c.event.p;
    var c1 := Step(j, n, a).client;
    WholeInvOk(j, n);
    ControlSize(j, p);
    NextUpto(j, c.sequence);
    hide Prefix, Control, C.Written, Seal, WholeInv, Job.Last, Job.Valid;
    assert |c1.output| == |c.output| + p.size;
    assert c.output == Upto(j, c.sequence);
    assert c1.sequence == c.sequence + 1 && c1.mode != C.DONE;
  }

  lemma ControlSize(j: Job, p: Packet)
    requires Control(j, p)
    ensures p.size >= 0x5555 > 2 * PKT_DMAX && p.typ != PKT_TYPE_DAT && Intact(j.inCksum, p)
  {
  }

  lemma NextUpto(j: Job, k: nat)
    requires j.Valid()
    ensures |Upto(j, k + 1)| <= |Upto(j, k)| + PKT_DMAX
  {
    assert (k + 1) * j.B() == k * j.B() + j.B();
  }

  /** The output is right in every state the run passes through. */
  ghost predicate RightAlong(j: Job, n: Net, acts: seq<Action>)
    decreases |acts|
  {
    ClientOk(j, n.client) && (acts != [] ==> RightAlong(j, Step(j, n, acts[0]), acts[1..]))
  }

  lemma {:induction false} RightFrom(j: Job, n: Net, acts: seq<Action>, n': Net)
    requires j.Valid() && j.OffsetsFit() && WholeInv(j, n) && Runs(j, n, acts, n')
    ensures RightAlong(j, n, acts) <==> Clean(j, n, acts)
    decreases |acts|
  {
    hide Enabled, WholeInv, ClientOk, Misled;
    WholeInvOk(j, n);
    if acts != [] {
      var n1 := Step(j, n, acts[0]);
      if Misled(j, n, acts[0]) {
        MisledIsWrong(j, n, acts[0]);
      } else {
        match acts[0] {
          case ServerActs(turn) =>
            ServerIsSafe(j, n, turn);
            ServerKeepsWholeInv(j, n, turn);
          case ClientActs(turn) => ClientKeepsWholeInv(j, n, turn);
        }
        RightFrom(j, n1, acts[1..], n');
      }
      hide Step;
    }
  }

  /**
   * Cleanness is exactly what the output needs: a run from the fork keeps the output right throughout if and only if it
   * never hands a receiving client an answer of the handshake with the number the client waits for.
   */
  lemma RightExactly(j: Job, n0: Net, acts: seq<Action>, n: Net)
    requires j.Valid() && j.OffsetsFit() && ForkStart(j, n0) && Runs(j, n0, acts, n)
    ensures RightAlong(j, n0, acts) <==> Clean(j, n0, acts)
  {
    ForkIsWhole(j, n0);
    RightFrom(j, n0, acts, n);
  }

  /** The client will never wait for the number of an answer of the handshake: these are numbered 1 to 4. */
  predicate PastAnswers(j: Job, n: Net) {
    j.Last() == 0 || n.client.sequence > 4
  }

  lemma PastAnswersIsClean(j: Job, n: Net, a: Action)
    requires j.Valid() && WholeInv(j, n) && PastAnswers(j, n) && Enabled(j, n, a)
    ensures !Misled(j, n, a)
    ensures PastAnswers(j, Step(j, n, a))
  {
    WholeInvOk(j, n);
    if a.ClientActs? && Expected(j, n.client, a.c.event) {
      DownOk(j, n, a.c.event.p);
      if Control(j, a.c.event.p) {
        ControlFields(j.inCksum, a.c.event.p.sequence);
        DatFields(j, a.c.event.p.sequence);
        hide RrPkt, RejPkt, Dat;
      }
    }
    if a.ClientActs? {
      NumberGrows(j, n.client, a.c);
    }
    hide WholeInv, C.Step, S.Step, Expected, Control;
  }

  lemma NumberGrows(j: Job, c: C.Client, turn: C.Turn)
    requires j.Valid() && ClientOk(j, c) && C.Live(c)
    ensures c.sequence <= C.Step(j.ClientHost(), j.req, c, turn).0.sequence
  {
    hide RrPkt, RejPkt, Prefix;
  }

  lemma {:induction false} PastAnswersRun(j: Job, n: Net, acts: seq<Action>, n': Net)
    requires j.Valid() && j.OffsetsFit() && WholeInv(j, n) && PastAnswers(j, n) && Runs(j, n, acts, n')
    ensures Clean(j, n, acts)
    decreases |acts|
  {
    hide Enabled, WholeInv, Misled, PastAnswers;
    if acts != [] {
      PastAnswersIsClean(j, n, acts[0]);
      match acts[0] {
        case ServerActs(turn) =>
          ServerIsSafe(j, n, turn);
          ServerKeepsWholeInv(j, n, turn);
        case ClientActs(turn) => ClientKeepsWholeInv(j, n, turn);
      }
      hide Step;
      PastAnswersRun(j, Step(j, n, acts[0]), acts[1..], n');
    }
  }

  /** Once packet 4 of the file is written nothing left over from the handshake can do harm: every run is clean. */
  lemma SafePastAnswers(j: Job, n0: Net, n: Net, n': Net)
    requires j.Valid() && j.OffsetsFit() && ForkStart(j, n0) && CleanlyReaches(j, n0, n) && Reaches(j, n, n')
    requires n.client.sequence > 4
    ensures CleanlyReaches(j, n, n') && ClientOk(j, n'.client)
  {
    ReachesWholeInv(j, n0, n);
    var acts :| Runs(j, n, acts, n');
    PastAnswersRun(j, n, acts, n');
    assert CleanlyReaches(j, n, n');
    CleanlyTrans(j, n0, n, n');
    ReachesWholeInv(j, n0, n');
  }

  lemma ShortFileSafe(j: Job, n0: Net, n: Net)
    requires j.Valid() && j.Last() == 0 && ForkStart(j, n0) && Reaches(j, n0, n)
    ensures ClientOk(j, n.client)
  {
    ForkIsWhole(j, n0);
    var acts :| Runs(j, n0, acts, n);
    PastAnswersRun(j, n0, acts, n);
    assert CleanlyReaches(j, n0, n);
    ReachesWholeInv(j, n0, n);
  }

  // ----- a handshake without loss

  /** The client is in its handshake and has sent packet `i`. */
  predicate ClientAt(n: Net, i: nat) {
    n.client == C.Constructed().(index := i) && i < C.INIT_PACKETS
  }

  /** The child is in `init` and waits for packet `q`. */
  predicate ServerAt(n: Net, q: nat) {
    n.server.mode == S.INIT && n.server.sequence == q && n.server.retries > 0
  }

  /** The client takes an answer and sends the packet it asks for, or goes on to wait for the file. */
  lemma ClientHears(j: Job, n: Net, p: Packet, i: nat)
    requires ClientAt(n, i) && p in n.toClient && Control(j, p)
    ensures var n1 := Step(j, n, ClientGets(p));
      var i1 := C.NextIndex(i, p);
      && CleanlyReaches(j, n, n1) && n1.server == n.server && n1.toClient == n.toClient && n.toServer <= n1.toServer
      && (i1 < C.INIT_PACKETS ==> ClientAt(n1, i1) && C.InitPkt(j.inCksum, j.req, i1) in n1.toServer)
      && (i1 >= C.INIT_PACKETS ==> n1.client == C.Client(C.RECV_PACKETS, PKT_TRNSMAX, 0, 0, []))
      && (HandshakeInv(j, n) ==> HandshakeInv(j, n1))
  {
    ControlFields(j.inCksum, p.sequence);
    hide C.InitPkt, HandshakeInv, RrPkt, RejPkt;
    CleanlyStep(j, n, ClientGets(p));
    if HandshakeInv(j, n) {
      ClientKeepsHandshake(j, n, C.Turn(Arrive(p), C.All, true, true));
    }
  }

  /** The child takes the packet it waits for, or rejects one that is ahead of it. */
  lemma ServerHears(j: Job, n: Net, i: nat, q: nat)
    requires NameFits(j) && j.req.fromName in j.files
    requires ServerAt(n, q) && HandshakeInv(j, n)
    requires q <= i < C.INIT_PACKETS && C.InitPkt(j.inCksum, j.req, i) in n.toServer
    ensures var n1 := Step(j, n, ServerGets(C.InitPkt(j.inCksum, j.req, i)));
      && CleanlyReaches(j, n, n1) && n1.client == n.client && n1.toServer == n.toServer && n.toClient <= n1.toClient
      && (i > q ==> ServerAt(n1, q) && RejPkt(j.inCksum, q) in n1.toClient && HandshakeInv(j, n1))
      && (i == q ==> RrPkt(j.inCksum, q) in n1.toClient)
      && (i == q < 4 ==> ServerAt(n1, q + 1) && HandshakeInv(j, n1))
      && (i == q == 4 ==> n1.server.mode == S.FILL_WINDOW && HandedOver(j, n1))
  {
    var p := C.InitPkt(j.inCksum, j.req, i);
    InitPktFields(j, i);
    IntakeAgrees(j, n.server.(retries := PKT_TRNSMAX));
    CleanlyStep(j, n, ServerGets(p));
    ServerKeepsHandshake(j, n, S.Turn(Arrive(p), S.NoFault));
    hide C.InitPkt, S.Intake, RrPkt, RejPkt, HandshakeInv, HandedOver;
  }

  /** The client takes RR(i) and the child the packet it sends next. */
  lemma Exchange(j: Job, n: Net, i: nat) returns (n2: Net)
    requires NameFits(j) && j.req.fromName in j.files
    requires 1 <= i <= 3 && ClientAt(n, i) && ServerAt(n, i + 1) && HandshakeInv(j, n)
    requires RrPkt(j.inCksum, i) in n.toClient
    ensures CleanlyReaches(j, n, n2) && n.toClient <= n2.toClient
    ensures ClientAt(n2, i + 1) && RrPkt(j.inCksum, i + 1) in n2.toClient
    ensures i < 3 ==> ServerAt(n2, i + 2) && HandshakeInv(j, n2)
    ensures i == 3 ==> n2.server.mode == S.FILL_WINDOW && HandedOver(j, n2)
  {
    ControlFields(j.inCksum, i);
    hide HandshakeInv, HandedOver, RrPkt, C.InitPkt, Step, CleanlyReaches;
    ClientHears(j, n, RrPkt(j.inCksum, i), i);
    var n1 := Step(j, n, ClientGets(RrPkt(j.inCksum, i)));
    ServerHears(j, n1, i + 1, i + 1);
    n2 := Step(j, n1, ServerGets(C.InitPkt(j.inCksum, j.req, i + 1)));
    CleanlyTrans(j, n, n1, n2);
  }

  /**
   * The go-back every handshake makes: a fresh child still waits for packet 1, rejects packet 2, and the client
   * sends packet 1 again.
   */
  lemma GoBack(j: Job, n0: Net) returns (n4: Net)
    requires NameFits(j) && j.req.fromName in j.files && ForkStart(j, n0)
    ensures CleanlyReaches(j, n0, n4)
    ensures ClientAt(n4, 1) && ServerAt(n4, 2) && RrPkt(j.inCksum, 1) in n4.toClient && HandshakeInv(j, n4)
    ensures RejPkt(j.inCksum, 1) in n4.toClient
    ensures C.InitPkt(j.inCksum, j.req, 2) in n4.toServer && C.InitPkt(j.inCksum, j.req, 1) in n4.toServer
  {
    ForkStartOk(j, n0);
    ControlFields(j.inCksum, 1);
    hide HandshakeInv, HandedOver, RrPkt, RejPkt, C.InitPkt, Step, CleanlyReaches;
    ClientHears(j, n0, RrPkt(j.inCksum, 1), 1);
    var n1 := Step(j, n0, ClientGets(RrPkt(j.inCksum, 1)));
    ServerHears(j, n1, 2, 1);
    var n2 := Step(j, n1, ServerGets(C.InitPkt(j.inCksum, j.req, 2)));
    ClientHears(j, n2, RejPkt(j.inCksum, 1), 2);
    var n3 := Step(j, n2, ClientGets(RejPkt(j.inCksum, 1)));
    ServerHears(j, n3, 1, 1);
    n4 := Step(j, n3, ServerGets(C.InitPkt(j.inCksum, j.req, 1)));
    CleanlyTrans(j, n0, n1, n2);
    CleanlyTrans(j, n0, n2, n3);
    CleanlyTrans(j, n0, n3, n4);
  }

  /** Without loss the handshake succeeds: child and client reach the data phase with the client's parameters. */
  lemma HandshakeCompletes(j: Job, n0: Net) returns (n: Net)
    requires j.Valid() && ForkStart(j, n0)
    ensures CleanlyReaches(j, n0, n)
    ensures ReadyToFill(j, n.server)
    ensures n.client == C.Client(C.RECV_PACKETS, PKT_TRNSMAX, 0, 0, []) && DataInv(j, n)
    ensures RrPkt(j.inCksum, 1) in n.toClient
  {
    ValidNameFits(j);
    var n1 := GoBack(j, n0);
    var n2 := Exchange(j, n1, 1);
    var n3 := Exchange(j, n2, 2);
    var n4 := Exchange(j, n3, 3);
    ControlFields(j.inCksum, 4);
    hide HandshakeInv, RrPkt, CleanlyReaches;
    HandoverOk(j, n4);
    ClientHears(j, n4, RrPkt(j.inCksum, 4), 4);
    ClientKeepsDataInv(j, n4, C.Turn(Arrive(RrPkt(j.inCksum, 4)), C.All, true, true));
    n := Step(j, n4, ClientGets(RrPkt(j.inCksum, 4)));
    CleanlyTrans(j, n0, n1, n2);
    CleanlyTrans(j, n0, n2, n3);
    CleanlyTrans(j, n0, n3, n4);
    CleanlyTrans(j, n0, n4, n);
  }

  // ----- a longer file can meet an answer left over from the handshake

  /** The child sends the first window; packet 0 of the file is on its way. */
  lemma FirstWindow(j: Job, n: Net) returns (n2: Net)
    requires j.Valid() && ReadyToFill(j, n.server) && DataInv(j, n)
    ensures CleanlyReaches(j, n, n2) && DataInv(j, n2)
    ensures n2.client == n.client && n.toClient <= n2.toClient && Dat(j, 0) in n2.toClient
  {
    var n1 := Step(j, n, ServerQuiet());
    n2 := Step(j, n1, ServerQuiet());
    FirstFill(j, n.server);
    hide Dat, S.Fill, S.Send, ServerOk, CleanlyReaches, BaseOf, Job.Valid, Job.Last;
    SendOk(j, n1.server, S.NoFault);
    CleanlyStep(j, n, ServerQuiet());
    CleanlyStep(j, n1, ServerQuiet());
    CleanlyTrans(j, n, n1, n2);
    ServerKeepsDataInv(j, n, S.SILENCE);
    ServerKeepsDataInv(j, n1, S.SILENCE);
    var sent := S.Send(n1.server, S.NoFault).1;
    assert sent[0] == Dat(j, 0) && sent[0] in Elements(sent);
  }

  lemma FirstFill(j: Job, s: S.Server)
    requires j.Valid() && ReadyToFill(j, s)
    ensures var s1 := S.Fill(j.ServerHost(), s, S.NoFault);
      && s1.mode == S.SEND_WINDOW && ServerOk(j, s1) && s1.retries == s.retries
      && BaseOf(s1) == 0 && |s1.outBuf| == |s1.window| == j.W()
  {
    FillOk(j, s, S.NoFault);
    S.FillMode(j.ServerHost(), s, S.NoFault);
    FillSynced(j, s, S.NoFault);
    hide Dat;
  }

  /** The client takes packet 0 of the file, which does not end it. */
  lemma FirstPacket(j: Job, n: Net) returns (n1: Net)
    requires j.Valid() && j.Last() > 0 && DataInv(j, n)
    requires n.client == C.Client(C.RECV_PACKETS, PKT_TRNSMAX, 0, 0, []) && Dat(j, 0) in n.toClient
    ensures CleanlyReaches(j, n, n1) && DataInv(j, n1) && n1.toClient == n.toClient
    ensures n1.client.mode == C.RECV_PACKETS && n1.client.sequence == 1 && n1.client.retries == PKT_TRNSMAX
  {
    assert Upto(j, 0) == [];
    DatFields(j, 0);
    DatIsNotControl(j, 0);
    ClientKeepsDataInv(j, n, C.Turn(Arrive(Dat(j, 0)), C.All, true, true));
    AcceptOk(j, n.client, C.Turn(Arrive(Dat(j, 0)), C.All, true, true));
    n1 := Step(j, n, ClientGets(Dat(j, 0)));
    CleanlyStep(j, n, ClientGets(Dat(j, 0)));
  }

  /** RR(1) of the handshake, taken for packet 1 of the file, is written to the output. */
  lemma LeftoverWritten(j: Job, n: Net) returns (n1: Net)
    requires j.Valid() && DataInv(j, n) && RrPkt(j.inCksum, 1) in n.toClient
    requires n.client.mode == C.RECV_PACKETS && n.client.sequence == 1 && n.client.retries > 0
    ensures Reaches(j, n, n1) && !ClientOk(j, n1.client)
  {
    var p := RrPkt(j.inCksum, 1);
    ControlFields(j.inCksum, 1);
    hide RrPkt;
    n1 := Step(j, n, ClientGets(p));
    ReachesStep(j, n, ClientGets(p));
    MisledIsWrong(j, n, ClientGets(p));
  }

  /**
   * From the fork, over a network that may reorder and duplicate, every run keeps the output a prefix of the file if
   * and only if the file is shorter than one buffer. A longer file can meet an answer left over from the handshake.
   */
  lemma SafeFromForkExactly(j: Job, n0: Net)
    requires j.Valid() && ForkStart(j, n0)
    ensures (forall n :: Reaches(j, n0, n) ==> ClientOk(j, n.client)) <==> |j.File()| < j.B()
  {
    LastChunkBounds(j.File(), j.B());
    if j.Last() == 0 {
      forall n | Reaches(j, n0, n)
        ensures ClientOk(j, n.client)
      {
        ShortFileSafe(j, n0, n);
      }
    } else {
      MulLe(1, j.Last(), j.B());
      var n1 := HandshakeCompletes(j, n0);
      var n2 := FirstWindow(j, n1);
      var n3 := FirstPacket(j, n2);
      var n4 := LeftoverWritten(j, n3);
      CleanlyTrans(j, n0, n1, n2);
      CleanlyTrans(j, n0, n2, n3);
      CleanlyIsReaches(j, n0, n3);
      ReachesTrans(j, n0, n3, n4);
    }
  }
}
