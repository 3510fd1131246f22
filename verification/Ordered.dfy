/** The same two machines over channels that keep order and do not duplicate: they only drop and corrupt. */
module Ordered {
  import opened Packets
  import opened Chunks
  import opened Transfers
  import N = Network
  import H = Handshake
  import E = EndToEnd
  import S = ServerSpec
  import C = ClientSpec

  datatype Pair = Pair(server: S.Server, client: C.Client, toClient: seq<Packet>, toServer: seq<Packet>)

  datatype Action = ServerActs(s: S.Turn) | ClientActs(c: C.Turn) | DropToClient(i: nat) | DropToServer(i: nat)

  /** A packet arrives only from the head of its queue, as it is or with a wrong checksum. */
  predicate Deliverable(j: Job, e: Event, queue: seq<Packet>) {
    e.Arrive? ==> queue != [] && (e.p == queue[0] || !Intact(j.inCksum, e.p))
  }

  predicate Enabled(j: Job, o: Pair, a: Action) {
    match a
    case ServerActs(turn) => S.Live(o.server) && (S.Receiving(o.server) ==> Deliverable(j, turn.event, o.toServer))
    case ClientActs(turn) => C.Live(o.client) && Deliverable(j, turn.event, o.toClient) && !turn.write.Short?
    case DropToClient(i) => i < |o.toClient|
    case DropToServer(i) => i < |o.toServer|
  }

  function Without(queue: seq<Packet>, i: nat): seq<Packet> {
    if i < |queue| then queue[..i] + queue[i + 1..] else queue
  }

  /** What a reception leaves in the queue. */
  function Rest(queue: seq<Packet>, e: Event): seq<Packet> {
    if e.Arrive? then Without(queue, 0) else queue
  }

  function Step(j: Job, o: Pair, a: Action): Pair {
    match a
    case ServerActs(turn) =>
      var (s, sent) := S.Step(j.ServerHost(), o.server, turn);
      Pair(s, o.client, o.toClient + sent, if S.Receiving(o.server) then Rest(o.toServer, turn.event) else o.toServer)
    case ClientActs(turn) =>
      var (c, sent) := C.Step(j.ClientHost(), j.req, o.client, turn);
      Pair(o.server, c, Rest(o.toClient, turn.event), o.toServer + sent)
    case DropToClient(i) => o.(toClient := Without(o.toClient, i))
    case DropToServer(i) => o.(toServer := Without(o.toServer, i))
  }

  predicate Runs(j: Job, o: Pair, acts: seq<Action>, o': Pair)
    decreases |acts|
  {
    if acts == [] then o == o'
    else Enabled(j, o, acts[0]) && Runs(j, Step(j, o, acts[0]), acts[1..], o')
  }

  ghost predicate Reaches(j: Job, o: Pair, o': Pair) {
    exists acts :: Runs(j, o, acts, o')
  }

  lemma {:induction false} RunsConcat(j: Job, o: Pair, acts: seq<Action>, mid: Pair, more: seq<Action>, o': Pair)
    requires Runs(j, o, acts, mid) && Runs(j, mid, more, o')
    ensures Runs(j, o, acts + more, o')
    decreases |acts|
  {
    hide Step, Enabled;
    if acts == [] {
      assert acts + more == more;
    } else {
      RunsConcat(j, Step(j, o, acts[0]), acts[1..], mid, more, o');
      assert (acts + more)[0] == acts[0] && (acts + more)[1..] == acts[1..] + more;
    }
  }

  lemma ReachesTrans(j: Job, o: Pair, mid: Pair, o': Pair)
    requires Reaches(j, o, mid) && Reaches(j, mid, o')
    ensures Reaches(j, o, o')
  {
    var acts :| Runs(j, o, acts, mid);
    var more :| Runs(j, mid, more, o');
    RunsConcat(j, o, acts, mid, more, o');
  }

  /** `Run` has forked the child: the client has sent packet 1 and the listener has answered it. */
  predicate ForkStart(j: Job, o: Pair) {
    && o.server == S.Forked()
    && o.client == C.Constructed().(index := 1)
    && o.toClient == [RrPkt(j.inCksum, 1)]
    && o.toServer == []
  }

  // ----- an ordered run is a run of the reordering network

  predicate Covers(n: N.Net, o: Pair) {
    && n.server == o.server && n.client == o.client
    && N.Elements(o.toClient) <= n.toClient && N.Elements(o.toServer) <= n.toServer
  }

  lemma WithoutKeepsElements(queue: seq<Packet>, i: nat)
    ensures N.Elements(Without(queue, i)) <= N.Elements(queue)
  {
  }

  lemma StepCovered(j: Job, o: Pair, a: Action, n: N.Net) returns (n1: N.Net)
    requires Enabled(j, o, a) && Covers(n, o)
    ensures Covers(n1, Step(j, o, a))
    ensures N.Reaches(j, n, n1)
  {
    hide S.Step, C.Step;
    match a {
      case ServerActs(turn) =>
        WithoutKeepsElements(o.toServer, 0);
        n1 := N.Step(j, n, N.ServerActs(turn));
        N.ReachesStep(j, n, N.ServerActs(turn));
      case ClientActs(turn) =>
        WithoutKeepsElements(o.toClient, 0);
        n1 := N.Step(j, n, N.ClientActs(turn));
        N.ReachesStep(j, n, N.ClientActs(turn));
      case DropToClient(i) =>
        WithoutKeepsElements(o.toClient, i);
        N.ReachesSelf(j, n);
        n1 := n;
      case DropToServer(i) =>
        WithoutKeepsElements(o.toServer, i);
        N.ReachesSelf(j, n);
        n1 := n;
    }
  }

  /** Refinement: every ordered run has a run of the reordering network with the same two machines at its end. */
  lemma {:induction false} OrderedRefines(j: Job, o: Pair, acts: seq<Action>, o': Pair, n: N.Net) returns (n': N.Net)
    requires Runs(j, o, acts, o') && Covers(n, o)
    ensures N.Reaches(j, n, n') && Covers(n', o')
    decreases |acts|
  {
    if acts == [] {
      N.ReachesSelf(j, n);
      n' := n;
    } else {
      var n1 := StepCovered(j, o, acts[0], n);
      hide Step, Enabled, N.Reaches, Covers;
      n' := OrderedRefines(j, Step(j, o, acts[0]), acts[1..], o', n1);
      N.ReachesTrans(j, n, n1, n');
    }
  }

  // ----- the queues in the data phase

  predicate IsDat(p: Packet) {
    p.typ == PKT_TYPE_DAT
  }

  /** On the way to the client: packets of the file, and answers of the handshake. */
  predicate Sent(j: Job, p: Packet) {
    if IsDat(p) then FilePacket(j, p) else p.sequence >= 1 && N.Control(j, p)
  }

  /** Behind a packet of the file come only packets of the file, each less than a window behind it. */
  predicate InOrder(j: Job, p: Packet, q: Packet) {
    IsDat(p) ==> IsDat(q) && p.sequence < q.sequence + j.W()
  }

  /**
   * The queue to the client: handshake answers come before packets of the file and are gone once the client has
   * taken one; a packet of the file is less than a window behind every earlier one, less than a window ahead of what
   * the client expects and at most a window behind it.
   */
  predicate DownQueue(j: Job, queue: seq<Packet>, next: nat) {
    && (forall i :: 0 <= i < |queue| ==>
         && Sent(j, queue[i])
         && (next > 0 ==> IsDat(queue[i]))
         && (IsDat(queue[i]) ==> next <= queue[i].sequence + j.W() && queue[i].sequence < next + j.W()))
    && (forall h, i :: 0 <= h < i < |queue| ==> InOrder(j, queue[h], queue[i]))
  }

  /** `q` may follow RR `p`: a REJ has a higher number, an RR is less than a window behind. */
  predicate MayFollow(j: Job, p: Packet, q: Packet) {
    p.typ == PKT_TYPE_RR ==>
      && (q.typ == PKT_TYPE_REJ ==> p.sequence < q.sequence)
      && (q.typ == PKT_TYPE_RR ==> p.sequence < q.sequence + j.W())
  }

  /** The queue to the server: sound answers, each of which may follow every one ahead of it. */
  predicate UpQueue(j: Job, queue: seq<Packet>, stored: nat) {
    && (forall i :: 0 <= i < |queue| ==> AnswerOk(j, stored, queue[i]))
    && (forall h, i :: 0 <= h < i < |queue| ==> MayFollow(j, queue[h], queue[i]))
  }

  /** No REJ in the queue is below the base, and no RR more than a window. */
  predicate AboveBase(j: Job, queue: seq<Packet>, base: int) {
    forall i :: 0 <= i < |queue| ==>
      && (queue[i].typ == PKT_TYPE_REJ ==> base <= queue[i].sequence)
      && (queue[i].typ == PKT_TYPE_RR ==> base <= queue[i].sequence + j.W())
  }

  predicate BelowNext(queue: seq<Packet>, sequence: nat) {
    forall i :: 0 <= i < |queue| && IsDat(queue[i]) ==> queue[i].sequence < sequence
  }

  lemma DownWithout(j: Job, queue: seq<Packet>, next: nat, i: nat)
    requires DownQueue(j, queue, next)
    ensures DownQueue(j, Without(queue, i), next)
  {
  }

  lemma UpWithout(j: Job, queue: seq<Packet>, stored: nat, i: nat)
    requires UpQueue(j, queue, stored)
    ensures UpQueue(j, Without(queue, i), stored)
  {
  }

  lemma BoundsWithout(j: Job, up: seq<Packet>, base: int, down: seq<Packet>, sequence: nat, i: nat)
    ensures AboveBase(j, up, base) ==> AboveBase(j, Without(up, i), base)
    ensures BelowNext(down, sequence) ==> BelowNext(Without(down, i), sequence)
  {
  }

  // ----- the invariant of the data phase

  ghost predicate DataInv(j: Job, o: Pair) {
    && o.server.mode != S.INIT
    && ClientOk(j, o.client)
    && DownQueue(j, o.toClient, o.client.sequence)
    && UpQueue(j, o.toServer, Stored(j, o.client))
    && (S.Active(o.server) ==>
          && Behind(j, o.server, Stored(j, o.client))
          && o.client.sequence <= o.server.sequence <= BaseOf(o.server) + j.W()
          && AboveBase(j, o.toServer, BaseOf(o.server))
          && BelowNext(o.toClient, o.server.sequence))
  }

  lemma DropsKeepDataInv(j: Job, o: Pair, a: Action)
    requires DataInv(j, o) && (a.DropToClient? || a.DropToServer?)
    ensures DataInv(j, Step(j, o, a))
  {
    hide Behind, ClientOk, DownQueue, UpQueue, AboveBase, BelowNext, Stored, Without;
    DownWithout(j, o.toClient, o.client.sequence, a.i);
    UpWithout(j, o.toServer, Stored(j, o.client), a.i);
    BoundsWithout(j, o.toServer, BaseOf(o.server), o.toClient, o.server.sequence, a.i);
  }

  // ----- the client's step

  /** A client answers with at most one packet: RR with the number it got, or REJ with the one it expects. */
  lemma AnswerForm(j: Job, c: C.Client, turn: C.Turn)
    requires C.Live(c)
    ensures var (c1, sent) := C.Step(j.ClientHost(), j.req, c, turn);
      && |sent| <= 1
      && (sent != [] && sent[0].typ == PKT_TYPE_RR ==>
            c.mode == C.RECV_PACKETS && turn.event.Arrive? && Intact(j.inCksum, turn.event.p)
            && sent[0].sequence == turn.event.p.sequence <= c.sequence)
      && (sent != [] && sent[0].typ == PKT_TYPE_REJ ==>
            c.mode == C.RECV_PACKETS && sent[0].sequence == c.sequence && c1.sequence == c.sequence)
      && (c1.sequence != c.sequence && c.mode == C.RECV_PACKETS ==>
            c1.sequence == Inc(c.sequence) && Expected(j, c, turn.event))
  {
  }

  /** At the head of its queue nothing but the file packet it waits for carries the number the client waits for. */
  lemma ExpectedIsFile(j: Job, o: Pair, e: Event)
    requires j.Valid() && DataInv(j, o) && Deliverable(j, e, o.toClient) && Expected(j, o.client, e)
    ensures e.p == o.toClient[0] == Dat(j, o.client.sequence)
  {
  }

  /** What the client's new expectation means for the rest of its queue. */
  lemma DownAfter(j: Job, queue: seq<Packet>, next: nat, e: Event, next': nat)
    requires DownQueue(j, queue, next)
    requires next' == next
      || (next' == next + 1 && e.Arrive? && queue != [] && IsDat(queue[0]) && queue[0].sequence == next)
    ensures DownQueue(j, Rest(queue, e), next')
  {
  }

  /** One answer appended to the queue to the server. */
  lemma UpAfter(j: Job, queue: seq<Packet>, stored: nat, sent: seq<Packet>, stored': nat, base: int)
    requires UpQueue(j, queue, stored) && stored <= stored' && |sent| <= 1
    requires sent != [] ==> AnswerOk(j, stored', sent[0])
    requires sent != [] && sent[0].typ == PKT_TYPE_RR ==> stored' <= sent[0].sequence + j.W()
    requires sent != [] && sent[0].typ == PKT_TYPE_REJ ==> sent[0].sequence == stored'
    ensures UpQueue(j, queue + sent, stored')
    ensures AboveBase(j, queue, base) && base <= stored' ==> AboveBase(j, queue + sent, base)
  {
  }

  lemma ClientKeepsDataInv(j: Job, o: Pair, turn: C.Turn)
    requires j.Valid() && DataInv(j, o) && Enabled(j, o, ClientActs(turn))
    ensures DataInv(j, Step(j, o, ClientActs(turn)))
  {
    var c, e := o.client, turn.event;
    var o1 := Step(j, o, ClientActs(turn));
    var (c1, sent) := C.Step(j.ClientHost(), j.req, c, turn);
    if Expected(j, c, e) {
      ExpectedIsFile(j, o, e);
      AcceptOk(j, c, turn);
    }
    ClientStepOk(j, c, turn);
    AnswerForm(j, c, turn);
    ExpectationStep(j, o, turn);
    StoredBounds(j, c);
    StoredBounds(j, c1);
    var stored, stored1 := Stored(j, c), Stored(j, c1);
    if e.Arrive? && sent != [] && sent[0].typ == PKT_TYPE_RR {
      AnswerRange(j, o, turn);
    }
    hide ClientOk, DownQueue, UpQueue, AboveBase, BelowNext, Stored, C.Step, Expected, Behind, AnswerOk;
    hide IsDat, Rest, Without;
    DownAfter(j, o.toClient, c.sequence, e, c1.sequence);
    UpAfter(j, o.toServer, stored, sent, stored1, BaseOf(o.server));
    BoundsRest(j, o.toClient, o.server.sequence, e);
    if S.Active(o.server) {
      N.BehindMono(j, o.server, stored, stored1);
      BehindBase(j, o.server, stored1);
      ExpectationBelow(j, o, turn);
    }
  }

  lemma BehindBase(j: Job, s: S.Server, stored: nat)
    requires Behind(j, s, stored)
    ensures BaseOf(s) <= stored
  {
  }

  lemma BoundsRest(j: Job, down: seq<Packet>, sequence: nat, e: Event)
    ensures BelowNext(down, sequence) ==> BelowNext(Rest(down, e), sequence)
  {
  }

  /** The client's expectation stays, or grows by one when the packet of the file it waits for heads its queue. */
  lemma ExpectationStep(j: Job, o: Pair, turn: C.Turn)
    requires j.Valid() && DataInv(j, o) && Enabled(j, o, ClientActs(turn))
    ensures var next, next' := o.client.sequence, C.Step(j.ClientHost(), j.req, o.client, turn).0.sequence;
      || next' == next
      || (next' == next + 1 && turn.event.Arrive? && o.toClient != [] && IsDat(o.toClient[0])
          && o.toClient[0].sequence == next)
  {
    var c := o.client;
    AnswerForm(j, c, turn);
    if c.mode == C.INIT {
      InitStepOk(j, c, turn);
    } else if Expected(j, c, turn.event) {
      ExpectedIsFile(j, o, turn.event);
      DatFields(j, c.sequence);
      AcceptOk(j, c, turn);
    }
    hide C.Step, DownQueue, UpQueue, Behind, Dat;
  }

  /** An RR the client sends is less than a window behind what it has stored by then. */
  lemma AnswerRange(j: Job, o: Pair, turn: C.Turn)
    requires j.Valid() && DataInv(j, o) && Enabled(j, o, ClientActs(turn)) && turn.event.Arrive?
    ensures var (c1, sent) := C.Step(j.ClientHost(), j.req, o.client, turn);
      sent != [] && sent[0].typ == PKT_TYPE_RR ==> Stored(j, c1) <= sent[0].sequence + j.W()
  {
    var (c1, sent) := C.Step(j.ClientHost(), j.req, o.client, turn);
    AnswerForm(j, o.client, turn);
    ExpectationStep(j, o, turn);
    StoredBounds(j, c1);
    var p := turn.event.p;
    if sent != [] && sent[0].typ == PKT_TYPE_RR {
      hide C.Step, UpQueue, Behind, Stored, ClientOk;
      assert p == o.toClient[0];
      assert !IsDat(p) ==> o.client.sequence == 0;
    }
  }

  /** What the client expects has been read by the server. */
  lemma ExpectationBelow(j: Job, o: Pair, turn: C.Turn)
    requires j.Valid() && DataInv(j, o) && Enabled(j, o, ClientActs(turn)) && S.Active(o.server)
    ensures C.Step(j.ClientHost(), j.req, o.client, turn).0.sequence <= o.server.sequence
  {
    ExpectationStep(j, o, turn);
    hide C.Step, UpQueue, Behind, Stored, ClientOk, DownQueue;
  }

  // ----- the server's step

  /** Freshly sent packets of the window appended to the queue to the client. */
  lemma DownSend(j: Job, queue: seq<Packet>, next: nat, sent: seq<Packet>, lo: nat, base: nat, sequence: nat)
    requires DownQueue(j, queue, next) && BelowNext(queue, sequence)
    requires base <= next <= sequence <= base + j.W() && base <= lo && lo + |sent| <= sequence < U32_SIZE
    requires forall i :: 0 <= i < |sent| ==> sent[i] == Dat(j, lo + i) && FilePacket(j, sent[i])
    ensures DownQueue(j, queue + sent, next) && BelowNext(queue + sent, sequence)
  {
    forall i | 0 <= i < |sent|
      ensures sent[i].sequence == lo + i && IsDat(sent[i]) && Sent(j, sent[i])
    {
      DatFields(j, lo + i);
    }
    hide Sent, Dat, FilePacket;
    var q := queue + sent;
    forall i | 0 <= i < |q|
      ensures q[i] == if i < |queue| then queue[i] else sent[i - |queue|]
    {
    }
  }

  lemma BehindOk(j: Job, s: S.Server, stored: nat)
    requires j.Valid() && Behind(j, s, stored)
    ensures ServerOk(j, s) && BaseOf(s) + j.W() < U32_SIZE
  {
    hide ServerOk;
  }

  lemma SendKeepsDataInv(j: Job, o: Pair, turn: S.Turn)
    requires j.Valid() && DataInv(j, o) && Enabled(j, o, ServerActs(turn)) && o.server.mode == S.SEND_WINDOW
    ensures DataInv(j, Step(j, o, ServerActs(turn)))
  {
    hide ClientOk, UpQueue, AboveBase, Stored, Behind, Dat, FilePacket, ServerOk, DownQueue, BelowNext;
    hide S.InitStep, S.Fill, S.Send, S.WaitRR, Job.Valid, Job.Last;
    var s, stored := o.server, Stored(j, o.client);
    BehindOk(j, s, stored);
    BehindBase(j, s, stored);
    StoredBounds(j, o.client);
    ServerStepOk(j, s, stored, turn);
    SendOk(j, s, turn.fault);
    DownSend(j, o.toClient, o.client.sequence, S.Send(s, turn.fault).1, s.sequence - |s.outBuf|, BaseOf(s), s.sequence);
  }

  lemma FillKeepsDataInv(j: Job, o: Pair, turn: S.Turn)
    requires j.Valid() && DataInv(j, o) && Enabled(j, o, ServerActs(turn)) && o.server.mode == S.FILL_WINDOW
    ensures DataInv(j, Step(j, o, ServerActs(turn)))
  {
    var s := o.server;
    ServerStepOk(j, s, Stored(j, o.client), turn);
    FillOk(j, s, turn.fault);
    FillIsActive(j, s, turn.fault);
    var o1 := Step(j, o, ServerActs(turn));
    assert o1.toClient == o.toClient;
    assert S.Active(o1.server) ==> |o1.server.window| == j.W();
    hide ClientOk, UpQueue, AboveBase, Stored, Behind, Dat, ServerOk, DownQueue, S.Fill;
  }

  /** Taking an answer off the queue moves the base no further than the rest of the queue allows. */
  lemma UpHead(j: Job, queue: seq<Packet>, stored: nat, s: S.Server, e: Event)
    requires UpQueue(j, queue, stored) && AboveBase(j, queue, BaseOf(s)) && Deliverable(j, e, queue)
    requires s.mode == S.WAIT_RR && BaseOf(s) <= s.sequence
    ensures !Rewinds(j, s, e)
    ensures var (sequence, base) := Moved(j, s, e);
      && AboveBase(j, Rest(queue, e), base)
      && sequence == s.sequence && BaseOf(s) <= base <= s.sequence
  {
    hide AnswerOk;
    if e.Arrive? {
      var q := Without(queue, 0);
      assert forall k :: 0 <= k < |q| ==> q[k] == queue[k + 1];
      forall k | 0 <= k < |q|
        ensures MayFollow(j, queue[0], q[k])
      {
        assert MayFollow(j, queue[0], queue[k + 1]);
      }
    }
  }

  lemma WaitKeepsDataInv(j: Job, o: Pair, turn: S.Turn)
    requires j.Valid() && DataInv(j, o) && Enabled(j, o, ServerActs(turn)) && o.server.mode == S.WAIT_RR
    ensures DataInv(j, Step(j, o, ServerActs(turn)))
  {
    var s := o.server;
    var o1 := Step(j, o, ServerActs(turn));
    UpHead(j, o.toServer, Stored(j, o.client), s, turn.event);
    ServerStepOk(j, s, Stored(j, o.client), turn);
    WaitOk(j, s, turn);
    WaitIsNotInit(j, s, turn);
    UpWithout(j, o.toServer, Stored(j, o.client), 0);
    assert o1.toClient == o.toClient;
    hide ClientOk, UpQueue, AboveBase, Stored, Behind, Dat, ServerOk, DownQueue, S.WaitRR, BelowNext, Moved, Without;
  }

  lemma StepKeepsDataInv(j: Job, o: Pair, a: Action)
    requires j.Valid() && DataInv(j, o) && Enabled(j, o, a)
    ensures DataInv(j, Step(j, o, a))
  {
    match a {
      case ClientActs(turn) => ClientKeepsDataInv(j, o, turn);
      case ServerActs(turn) =>
        if o.server.mode == S.WAIT_RR {
          WaitKeepsDataInv(j, o, turn);
        } else if o.server.mode == S.FILL_WINDOW {
          FillKeepsDataInv(j, o, turn);
        } else {
          SendKeepsDataInv(j, o, turn);
        }
      case _ => DropsKeepDataInv(j, o, a);
    }
  }

  // ----- from the fork

  /** The same state with the queues forgotten. */
  function Unordered(o: Pair): N.Net {
    N.Net(o.server, o.client, N.Elements(o.toClient), N.Elements(o.toServer))
  }

  ghost predicate WholeInv(j: Job, o: Pair) {
    if o.server.mode == S.INIT then H.HandshakeInv(j, Unordered(o)) else DataInv(j, o)
  }

  lemma HandshakeShrinks(j: Job, n: N.Net, o: Pair)
    requires H.HandshakeInv(j, n) && Covers(n, o)
    ensures H.HandshakeInv(j, Unordered(o))
  {
  }

  /** Leftovers of the handshake are ahead of every packet of the file. */
  lemma HandoverOk(j: Job, n: N.Net, o: Pair)
    requires j.Valid() && H.HandedOver(j, n) && Covers(n, o)
    ensures DataInv(j, o)
  {
    E.ValidNameFits(j);
    E.UnstartedOk(j, o.client);
    forall i | 0 <= i < |o.toClient|
      ensures Sent(j, o.toClient[i]) && !IsDat(o.toClient[i])
    {
      assert o.toClient[i] in n.toClient;
      ControlFields(j.inCksum, o.toClient[i].sequence);
    }
    forall i | 0 <= i < |o.toServer|
      ensures AnswerOk(j, 0, o.toServer[i])
    {
      assert o.toServer[i] in n.toServer;
      E.RequestIsAnswer(j, o.toServer[i]);
    }
    hide Sent, H.ReplyOk, H.RequestOk;
  }

  lemma StepKeepsWholeInv(j: Job, o: Pair, a: Action)
    requires j.Valid() && WholeInv(j, o) && Enabled(j, o, a)
    ensures WholeInv(j, Step(j, o, a))
  {
    if o.server.mode != S.INIT {
      StepKeepsDataInv(j, o, a);
    } else {
      E.ValidNameFits(j);
      var n, o1 := Unordered(o), Step(j, o, a);
      WithoutKeepsElements(o.toServer, 0);
      WithoutKeepsElements(o.toClient, 0);
      match a {
        case ServerActs(turn) =>
          H.ServerKeepsHandshake(j, n, turn);
          var n1 := N.Step(j, n, N.ServerActs(turn));
          hide H.HandshakeInv, H.HandedOver, DataInv, S.Step;
          if o1.server.mode == S.INIT {
            HandshakeShrinks(j, n1, o1);
          } else {
            HandoverOk(j, n1, o1);
          }
        case ClientActs(turn) =>
          H.ClientKeepsHandshake(j, n, turn);
          hide H.HandshakeInv, DataInv, C.Step;
          HandshakeShrinks(j, N.Step(j, n, N.ClientActs(turn)), o1);
        case DropToClient(i) =>
          WithoutKeepsElements(o.toClient, i);
          hide H.HandshakeInv, DataInv;
          HandshakeShrinks(j, n, o1);
        case DropToServer(i) =>
          WithoutKeepsElements(o.toServer, i);
          hide H.HandshakeInv, DataInv;
          HandshakeShrinks(j, n, o1);
      }
    }
  }

  lemma {:induction false} RunKeepsWholeInv(j: Job, o: Pair, acts: seq<Action>, o': Pair)
    requires j.Valid() && WholeInv(j, o) && Runs(j, o, acts, o')
    ensures WholeInv(j, o')
    decreases |acts|
  {
    if acts != [] {
      StepKeepsWholeInv(j, o, acts[0]);
      hide WholeInv, Step, Enabled;
      RunKeepsWholeInv(j, Step(j, o, acts[0]), acts[1..], o');
    }
  }

  lemma ForkIsWhole(j: Job, o0: Pair)
    requires ForkStart(j, o0)
    ensures WholeInv(j, o0)
  {
    ControlFields(j.inCksum, 1);
    hide RrPkt;
  }

  lemma ReachesWholeInv(j: Job, o0: Pair, o: Pair)
    requires j.Valid() && ForkStart(j, o0) && Reaches(j, o0, o)
    ensures WholeInv(j, o)
  {
    ForkIsWhole(j, o0);
    var acts :| Runs(j, o0, acts, o);
    RunKeepsWholeInv(j, o0, acts, o);
  }

  // ----- what holds in every state reached from the fork

  /** Order misleads nobody: at the head of its queue a receiving client finds no answer with the awaited number. */
  lemma NotMisled(j: Job, o: Pair, n: N.Net, turn: C.Turn)
    requires j.Valid() && WholeInv(j, o) && Enabled(j, o, ClientActs(turn)) && Covers(n, o)
    ensures !N.Misled(j, n, N.ClientActs(turn))
  {
    hide RrPkt, RejPkt, Dat;
    if o.server.mode == S.INIT {
      var n0 := Unordered(o);
      assert forall p :: p in o.toClient ==> p in n0.toClient && p.sequence >= 1;
    } else if Expected(j, o.client, turn.event) {
      ExpectedIsFile(j, o, turn.event);
      N.DatIsNotControl(j, o.client.sequence);
    }
  }

  lemma StepCleanlyCovered(j: Job, o: Pair, a: Action, n: N.Net) returns (n1: N.Net)
    requires j.Valid() && WholeInv(j, o) && Enabled(j, o, a) && Covers(n, o)
    ensures Covers(n1, Step(j, o, a))
    ensures N.CleanlyReaches(j, n, n1)
  {
    hide S.Step, C.Step, WholeInv;
    match a {
      case ServerActs(turn) =>
        WithoutKeepsElements(o.toServer, 0);
        n1 := N.Step(j, n, N.ServerActs(turn));
        N.CleanlyStep(j, n, N.ServerActs(turn));
      case ClientActs(turn) =>
        WithoutKeepsElements(o.toClient, 0);
        n1 := N.Step(j, n, N.ClientActs(turn));
        NotMisled(j, o, n, turn);
        N.CleanlyStep(j, n, N.ClientActs(turn));
      case DropToClient(i) =>
        WithoutKeepsElements(o.toClient, i);
        N.CleanlySelf(j, n);
        n1 := n;
      case DropToServer(i) =>
        WithoutKeepsElements(o.toServer, i);
        N.CleanlySelf(j, n);
        n1 := n;
    }
  }

  /** Refinement of the kind that counts: from the fork on, an ordered run is matched by a clean run. */
  lemma {:induction false} OrderedIsClean(j: Job, o: Pair, acts: seq<Action>, o': Pair, n: N.Net) returns (n': N.Net)
    requires j.Valid() && WholeInv(j, o) && Runs(j, o, acts, o') && Covers(n, o)
    ensures N.CleanlyReaches(j, n, n') && Covers(n', o')
    decreases |acts|
  {
    hide WholeInv, N.CleanlyReaches, Covers, Enabled;
    if acts == [] {
      N.CleanlySelf(j, n);
      n' := n;
    } else {
      var n1 := StepCleanlyCovered(j, o, acts[0], n);
      StepKeepsWholeInv(j, o, acts[0]);
      hide Step;
      n' := OrderedIsClean(j, Step(j, o, acts[0]), acts[1..], o', n1);
      N.CleanlyTrans(j, n, n1, n');
    }
  }

  /** Every state that an ordered run reaches from the fork is covered by one that a clean run reaches from the fork. */
  lemma OrderedRunsAreClean(j: Job, o0: Pair, o: Pair) returns (n0: N.Net, n: N.Net)
    requires j.Valid() && ForkStart(j, o0) && Reaches(j, o0, o)
    ensures H.ForkStart(j, n0) && N.CleanlyReaches(j, n0, n) && Covers(n, o)
  {
    n0 := Unordered(o0);
    ForkIsWhole(j, o0);
    var acts :| Runs(j, o0, acts, o);
    hide RrPkt, WholeInv;
    n := OrderedIsClean(j, o0, acts, o, n0);
  }

  /** Over ordered channels the whole transfer, handshake included, delivers a file of any length. */
  lemma DeliveredInOrder(j: Job, o0: Pair, o: Pair)
    requires j.Valid() && ForkStart(j, o0) && Reaches(j, o0, o)
    ensures o.client.mode == C.RECV_PACKETS ==>
      o.client.output == j.File()[..Min(o.client.sequence * j.B(), |j.File()|)]
    ensures o.client.mode == C.DONE ==> o.client.output == j.File()
    ensures o.client.output <= j.File()
  {
    ReachesWholeInv(j, o0, o);
    if o.server.mode == S.INIT {
      E.UnstartedOk(j, o.client);
    }
    PrefixMono(j.File(), j.B(), Stored(j, o.client), Stored(j, o.client));
  }

  /**
   * Sequence ranges: a data packet in flight is less than a window ahead of what the client expects and at most a
   * window behind it; an RR in flight is below what the client expects and at most a window behind the base.
   */
  lemma SequenceRanges(j: Job, o0: Pair, o: Pair, p: Packet)
    requires j.Valid() && ForkStart(j, o0) && Reaches(j, o0, o)
    ensures p in o.toClient && IsDat(p) ==>
      o.client.sequence - j.W() <= p.sequence < o.client.sequence + j.W()
    ensures p in o.toServer && p.typ == PKT_TYPE_RR ==> p.sequence < o.client.sequence
    ensures p in o.toServer && p.typ == PKT_TYPE_RR && S.Active(o.server) ==> BaseOf(o.server) - j.W() <= p.sequence
  {
    ReachesWholeInv(j, o0, o);
    if o.server.mode == S.INIT {
      NoDataYet(j, o, p);
    } else {
      StoredBounds(j, o.client);
    }
    hide Behind, ClientOk, Sent, Stored, H.HandshakeInv;
  }

  /** Before the data phase there is neither a packet of the file nor an RR of the client in flight. */
  lemma NoDataYet(j: Job, o: Pair, p: Packet)
    requires H.HandshakeInv(j, Unordered(o))
    ensures p in o.toClient ==> !IsDat(p)
    ensures p in o.toServer ==> p.typ != PKT_TYPE_RR
  {
    var n := Unordered(o);
    ControlFields(j.inCksum, p.sequence);
    ControlFields(j.inCksum, 0);
    if p.sequence < C.INIT_PACKETS {
      H.InitPktFields(j, p.sequence);
    }
    hide RrPkt, RejPkt, C.InitPkt;
    assert p in o.toClient ==> p in n.toClient;
    assert p in o.toServer ==> p in n.toServer;
  }

  /** Order keeps every REJ in flight at or above the base, and above every RR ahead of it. */
  lemma RejectsAboveBase(j: Job, o0: Pair, o: Pair, i: nat, h: nat)
    requires j.Valid() && ForkStart(j, o0) && Reaches(j, o0, o) && S.Active(o.server)
    requires i < |o.toServer| && o.toServer[i].typ == PKT_TYPE_REJ
    ensures BaseOf(o.server) <= o.toServer[i].sequence
    ensures h < i && o.toServer[h].typ == PKT_TYPE_RR ==> o.toServer[h].sequence < o.toServer[i].sequence
  {
    ReachesWholeInv(j, o0, o);
    hide Behind, ClientOk, Sent, Stored, DownQueue;
    assert h < i ==> MayFollow(j, o.toServer[h], o.toServer[i]);
  }

  /** So the server never rewinds, and whenever it waits the client expects a packet of its window or the next one. */
  lemma NoRewind(j: Job, o0: Pair, o: Pair, e: Event)
    requires j.Valid() && ForkStart(j, o0) && Reaches(j, o0, o)
    ensures o.server.mode == S.WAIT_RR && Deliverable(j, e, o.toServer) ==> !Rewinds(j, o.server, e)
    ensures o.server.mode == S.WAIT_RR && o.client.mode != C.ERROR ==>
      BaseOf(o.server) <= o.client.sequence <= o.server.sequence == BaseOf(o.server) + j.W()
  {
    ReachesWholeInv(j, o0, o);
    if o.server.mode == S.WAIT_RR {
      StoredBounds(j, o.client);
      if Deliverable(j, e, o.toServer) {
        UpHead(j, o.toServer, Stored(j, o.client), o.server, e);
      }
    }
  }

  lemma StepIsMonotone(j: Job, o: Pair, a: Action)
    requires j.Valid() && DataInv(j, o) && Enabled(j, o, a)
    ensures S.Active(Step(j, o, a).server) ==>
      && S.Active(o.server)
      && BaseOf(o.server) <= BaseOf(Step(j, o, a).server)
      && o.server.sequence <= Step(j, o, a).server.sequence
  {
    if a.ServerActs? {
      var s, turn := o.server, a.s;
      match s.mode {
        case FILL_WINDOW =>
          FillIsActive(j, s, turn.fault);
          FillOk(j, s, turn.fault);
        case SEND_WINDOW => SendOk(j, s, turn.fault);
        case WAIT_RR =>
          UpHead(j, o.toServer, Stored(j, o.client), s, turn.event);
          WaitOk(j, s, turn);
          WaitIsNotInit(j, s, turn);
          hide S.WaitRR;
        case _ =>
      }
    }
  }

  /** Over any run of the data phase neither the base nor the number of the next packet to be read ever decreases. */
  lemma {:induction false} NeverBack(j: Job, o: Pair, acts: seq<Action>, o': Pair)
    requires j.Valid() && DataInv(j, o) && Runs(j, o, acts, o')
    ensures S.Active(o'.server) ==>
      && S.Active(o.server)
      && BaseOf(o.server) <= BaseOf(o'.server) && o.server.sequence <= o'.server.sequence
    decreases |acts|
  {
    if acts != [] {
      StepIsMonotone(j, o, acts[0]);
      StepKeepsDataInv(j, o, acts[0]);
      hide DataInv, Step, Enabled, BaseOf;
      NeverBack(j, Step(j, o, acts[0]), acts[1..], o');
    }
  }
}
