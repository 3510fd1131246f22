/**
 * Both machines joined by two channels that may drop, duplicate, delay and reorder packets and corrupt them
 * detectably: what was ever sent may be delivered at any time, any number of times, or never.
 */
module Network {
  import opened Packets
  import opened Chunks
  import opened Transfers
  import S = ServerSpec
  import C = ClientSpec

  datatype Net = Net(server: S.Server, client: C.Client, toClient: set<Packet>, toServer: set<Packet>)

  datatype Action = ServerActs(s: S.Turn) | ClientActs(c: C.Turn)

  /** A reception is silence, an error, a packet that was sent, or something whose checksum is wrong. */
  predicate Deliverable(j: Job, e: Event, channel: set<Packet>) {
    e.Arrive? && Intact(j.inCksum, e.p) ==> e.p in channel
  }

  /** A running side may act if what it hears is deliverable; the disk takes all of a `write` or fails it. */
  predicate Enabled(j: Job, n: Net, a: Action) {
    match a
    case ServerActs(turn) => S.Live(n.server) && (S.Receiving(n.server) ==> Deliverable(j, turn.event, n.toServer))
    case ClientActs(turn) => C.Live(n.client) && Deliverable(j, turn.event, n.toClient) && !turn.write.Short?
  }

  function Elements(ps: seq<Packet>): set<Packet> {
    set p | p in ps
  }

  function Step(j: Job, n: Net, a: Action): Net {
    match a
    case ServerActs(turn) =>
      var (s, sent) := S.Step(j.ServerHost(), n.server, turn);
      n.(server := s, toClient := n.toClient + Elements(sent))
    case ClientActs(turn) =>
      var (c, sent) := C.Step(j.ClientHost(), j.req, n.client, turn);
      n.(client := c, toServer := n.toServer + Elements(sent))
  }

  /** `n'` is reached from `n` by the actions in order, each enabled in its turn. */
  predicate Runs(j: Job, n: Net, acts: seq<Action>, n': Net)
    decreases |acts|
  {
    if acts == [] then n == n'
    else Enabled(j, n, acts[0]) && Runs(j, Step(j, n, acts[0]), acts[1..], n')
  }

  ghost predicate Reaches(j: Job, n: Net, n': Net) {
    exists acts :: Runs(j, n, acts, n')
  }

  lemma {:induction false} RunsConcat(j: Job, n: Net, acts: seq<Action>, mid: Net, more: seq<Action>, n': Net)
    requires Runs(j, n, acts, mid) && Runs(j, mid, more, n')
    ensures Runs(j, n, acts + more, n')
    decreases |acts|
  {
    hide Step, Enabled;
    if acts == [] {
      assert acts + more == more;
    } else {
      RunsConcat(j, Step(j, n, acts[0]), acts[1..], mid, more, n');
      assert (acts + more)[0] == acts[0] && (acts + more)[1..] == acts[1..] + more;
    }
  }

  lemma RunsOne(j: Job, n: Net, a: Action)
    requires Enabled(j, n, a)
    ensures Runs(j, n, [a], Step(j, n, a))
  {
  }

  lemma ReachesSelf(j: Job, n: Net)
    ensures Reaches(j, n, n)
  {
    assert Runs(j, n, [], n);
  }

  lemma ReachesStep(j: Job, n: Net, a: Action)
    requires Enabled(j, n, a)
    ensures Reaches(j, n, Step(j, n, a))
  {
    RunsOne(j, n, a);
  }

  lemma ReachesTrans(j: Job, n: Net, mid: Net, n': Net)
    requires Reaches(j, n, mid) && Reaches(j, mid, n')
    ensures Reaches(j, n, n')
  {
    var acts :| Runs(j, n, acts, mid);
    var more :| Runs(j, mid, more, n');
    RunsConcat(j, n, acts, mid, more, n');
  }

  function ServerQuiet(): Action {
    ServerActs(S.SILENCE)
  }

  function ServerGets(p: Packet): Action {
    ServerActs(S.Turn(Arrive(p), S.NoFault))
  }

  function ClientGets(p: Packet): Action {
    ClientActs(C.Turn(Arrive(p), C.All, true, true))
  }

  // ----- clean runs

  predicate Control(j: Job, p: Packet) {
    p == RrPkt(j.inCksum, p.sequence) || p == RejPkt(j.inCksum, p.sequence)
  }

  /** A receiving client is handed an answer of the handshake that carries the number it waits for, and writes it. */
  predicate Misled(j: Job, n: Net, a: Action) {
    a.ClientActs? && Expected(j, n.client, a.c.event) && Control(j, a.c.event.p) && a.c.write.All?
  }

  /** No action of the run misleads the client. */
  predicate Clean(j: Job, n: Net, acts: seq<Action>)
    decreases |acts|
  {
    acts == [] || (!Misled(j, n, acts[0]) && Clean(j, Step(j, n, acts[0]), acts[1..]))
  }

  ghost predicate CleanlyReaches(j: Job, n: Net, n': Net) {
    exists acts :: Runs(j, n, acts, n') && Clean(j, n, acts)
  }

  lemma CleanlyIsReaches(j: Job, n: Net, n': Net)
    requires CleanlyReaches(j, n, n')
    ensures Reaches(j, n, n')
  {
  }

  lemma CleanlySelf(j: Job, n: Net)
    ensures CleanlyReaches(j, n, n)
  {
    assert Runs(j, n, [], n) && Clean(j, n, []);
  }

  lemma CleanlyStep(j: Job, n: Net, a: Action)
    requires Enabled(j, n, a) && !Misled(j, n, a)
    ensures CleanlyReaches(j, n, Step(j, n, a))
  {
    RunsOne(j, n, a);
    assert Clean(j, n, [a]);
  }

  lemma CleanlyTrans(j: Job, n: Net, mid: Net, n': Net)
    requires CleanlyReaches(j, n, mid) && CleanlyReaches(j, mid, n')
    ensures CleanlyReaches(j, n, n')
  {
    var acts :| Runs(j, n, acts, mid) && Clean(j, n, acts);
    var more :| Runs(j, mid, more, n') && Clean(j, mid, more);
    RunsConcat(j, n, acts, mid, more, n');
    CleanConcat(j, n, acts, mid, more);
  }

  lemma {:induction false} CleanConcat(j: Job, n: Net, acts: seq<Action>, mid: Net, more: seq<Action>)
    requires Runs(j, n, acts, mid) && Clean(j, n, acts) && Clean(j, mid, more)
    ensures Clean(j, n, acts + more)
    decreases |acts|
  {
    hide Step, Enabled, Misled;
    if acts == [] {
      assert acts + more == more;
    } else {
      CleanConcat(j, Step(j, n, acts[0]), acts[1..], mid, more);
      assert (acts + more)[0] == acts[0] && (acts + more)[1..] == acts[1..] + more;
    }
  }

  // ----- the data phase

  /** On the way to the client: packets of the file, and what is left over from the handshake. */
  predicate ToClientOk(j: Job, p: Packet) {
    FilePacket(j, p) || (Control(j, p) && 1 <= p.sequence <= 4)
  }

  ghost predicate DataInv(j: Job, n: Net) {
    && n.server.mode != S.INIT
    && (S.Active(n.server) ==> Behind(j, n.server, Stored(j, n.client)))
    && ClientOk(j, n.client)
    && (forall p :: p in n.toClient ==> ToClientOk(j, p))
    && (forall p :: p in n.toServer ==> AnswerOk(j, Stored(j, n.client), p))
  }

  lemma ServerKeepsDataInv(j: Job, n: Net, turn: S.Turn)
    requires j.Valid() && DataInv(j, n) && Enabled(j, n, ServerActs(turn))
    requires !Overruns(j, n.server, turn.event)
    ensures DataInv(j, Step(j, n, ServerActs(turn)))
  {
    hide FilePacket, Control, Behind, AnswerOk, ClientOk, S.Step, Stored;
    ServerStepOk(j, n.server, Stored(j, n.client), turn);
  }

  lemma AnswerOkMono(j: Job, n: nat, m: nat, p: Packet)
    requires AnswerOk(j, n, p) && n <= m
    ensures AnswerOk(j, m, p)
  {
  }

  lemma BehindMono(j: Job, s: S.Server, n: nat, m: nat)
    requires Behind(j, s, n) && n <= m
    ensures Behind(j, s, m)
  {
  }

  /** A client that is not misled hears the number it waits for only from the packet of the file. */
  lemma ExpectedIsFile(j: Job, n: Net, turn: C.Turn)
    requires DataInv(j, n) && Deliverable(j, turn.event, n.toClient) && Expected(j, n.client, turn.event)
    requires turn.write.All? && !Misled(j, n, ClientActs(turn))
    ensures turn.event.p == Dat(j, n.client.sequence)
  {
    hide Control, Dat;
  }

  lemma ClientKeepsDataInv(j: Job, n: Net, turn: C.Turn)
    requires j.Valid() && DataInv(j, n) && Enabled(j, n, ClientActs(turn)) && !Misled(j, n, ClientActs(turn))
    ensures DataInv(j, Step(j, n, ClientActs(turn)))
    ensures Stored(j, n.client) <= Stored(j, Step(j, n, ClientActs(turn)).client)
    ensures n.client.output <= Step(j, n, ClientActs(turn)).client.output
  {
    if Expected(j, n.client, turn.event) && turn.write.All? {
      ExpectedIsFile(j, n, turn);
    }
    ClientStepOk(j, n.client, turn);
    hide FilePacket, Control, Behind, AnswerOk, ClientOk, C.Step, Stored, Dat, Expected;
    var n1 := Step(j, n, ClientActs(turn));
    var stored, stored1 := Stored(j, n.client), Stored(j, n1.client);
    if S.Active(n.server) {
      BehindMono(j, n.server, stored, stored1);
    }
    forall p | p in n.toServer
      ensures AnswerOk(j, stored1, p)
    {
      AnswerOkMono(j, stored, stored1, p);
    }
  }

  /** The server rewinds only to packets before the last. */
  lemma NoOverrun(j: Job, n: Net, turn: S.Turn)
    requires j.Valid() && j.OffsetsFit() && DataInv(j, n)
    ensures !Overruns(j, n.server, turn.event)
  {
    if Rewinds(j, n.server, turn.event) {
      OffsetFits(j, turn.event.p.sequence);
    }
  }

  /** A packet of the file misleads nobody. */
  lemma DatIsNotControl(j: Job, k: nat)
    requires k < U32_SIZE
    ensures !Control(j, Dat(j, k))
  {
    DatFields(j, k);
    ControlFields(j.inCksum, k);
    hide Dat, RrPkt, RejPkt;
  }
}
