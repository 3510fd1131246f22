/** One transfer: the file, the parameters, and what the fields of either side mean in terms of the file. */
module Transfers {
  import opened Packets
  import opened Chunks
  import S = ServerSpec
  import C = ClientSpec

  datatype Job = Job(inCksum: Checksum, files: map<seq<byte>, seq<byte>>, beyond: nat -> byte, req: C.Request) {
    function ServerHost(): S.Host {
      S.Host(inCksum, files)
    }

    function ClientHost(): C.Host {
      C.Host(inCksum, beyond)
    }

    /** The file the client asks for. */
    function File(): seq<byte> {
      if req.fromName in files then files[req.fromName] else []
    }

    function B(): nat {
      req.bufferSize
    }

    function W(): nat {
      req.windowSize
    }

    /** The number of the packet that ends the file. */
    function Last(): nat {
      if B() > 0 then LastChunk(File(), B()) else 0
    }

    /**
     * The buffer fits the payload array, the window has room and fits its 16-bit field, the name fits the payload
     * array, and 32 bits hold the packet numbers.
     */
    predicate Valid() {
      && req.fromName in files && |req.fromName| < PKT_DMAX && 0 !in req.fromName
      && 1 <= B() <= PKT_DMAX
      && 1 <= W() < U16_SIZE
      && Last() + W() < U32_SIZE
    }

    /** 32 bits hold the offset of every packet before the last. */
    predicate OffsetsFit() {
      Last() == 0 || B() * (Last() - 1) < U32_SIZE
    }
  }

  /** Packet k of the file. */
  function Dat(j: Job, k: nat): Packet {
    DatPkt(j.inCksum, k % U32_SIZE, Chunk(j.File(), j.B(), k))
  }

  /** The first k packets' worth of file. */
  function Upto(j: Job, k: nat): seq<byte> {
    Prefix(j.File(), j.B(), k)
  }

  // ----- the server's window and cursor

  /** The number of the oldest packet in the window, or the next to be read. */
  function BaseOf(s: S.Server): int {
    s.sequence - |s.window|
  }

  /** The window is a run of packets of the file that ends where the next read starts. */
  ghost predicate Synced(j: Job, s: S.Server) {
    && s.bufferSize == j.B() && s.windowSize == j.W() && s.file == j.File()
    && |s.window| <= s.sequence && |s.window| <= j.W()
    && Min(s.offset, |s.file|) == Min(s.sequence * j.B(), |s.file|)
    && forall i :: 0 <= i < |s.window| ==> s.window[i] == Dat(j, BaseOf(s) + i)
  }

  ghost predicate ServerOk(j: Job, s: S.Server) {
    Synced(j, s) && S.Disciplined(s)
  }

  lemma FrontIsBase(j: Job, s: S.Server)
    requires Synced(j, s)
    ensures S.Base(s) == BaseOf(s)
  {
  }

  /** One read appends exactly the next packet of the file. */
  lemma PushIsDat(j: Job, s: S.Server)
    requires Synced(j, s) && s.sequence + 1 < U32_SIZE
    ensures var s1 := S.Push(j.ServerHost(), s);
      && s1 == s.(window := s.window + [Dat(j, s.sequence)], outBuf := s.outBuf + [Dat(j, s.sequence)],
                  sequence := s.sequence + 1, offset := s1.offset)
      && Min(s1.offset, |s.file|) == Min((s.sequence + 1) * j.B(), |s.file|)
  {
    hide Read, Chunk, Pad;
    ReadAtChunk(s.file, j.B(), s.offset, s.sequence);
    assert s.sequence % U32_SIZE == s.sequence;
  }

  lemma PushSynced(j: Job, s: S.Server)
    requires Synced(j, s) && |s.window| < j.W() && s.sequence + 1 < U32_SIZE
    ensures var s1 := S.Push(j.ServerHost(), s);
      && s1.mode == s.mode && s1.retries == s.retries
      && Synced(j, s1) && BaseOf(s1) == BaseOf(s) && s1.sequence == s.sequence + 1
      && s1.window == s.window + [Dat(j, s.sequence)] && s1.outBuf == s.outBuf + [Dat(j, s.sequence)]
  {
    PushIsDat(j, s);
    hide S.Push, Dat;
  }

  /** Filling keeps the base and leaves a full window of the file, with the cursor behind it. */
  lemma {:induction false} FillSynced(j: Job, s: S.Server, fault: S.Fault)
    requires j.Valid() && Synced(j, s) && s.mode == S.FILL_WINDOW
    requires BaseOf(s) + j.W() < U32_SIZE
    requires S.Fill(j.ServerHost(), s, fault).mode != S.ERROR
    ensures var s1 := S.Fill(j.ServerHost(), s, fault);
      && Synced(j, s1) && s1.mode == S.SEND_WINDOW && s1.retries == s.retries
      && BaseOf(s1) == BaseOf(s) && |s1.window| == j.W()
      && s1.window[..|s.window|] == s.window
      && s1.outBuf == s.outBuf + s1.window[|s.window|..]
    decreases s.windowSize - |s.window|
  {
    hide Dat, S.Push;
    S.FillAppends(j.ServerHost(), s, fault);
    if |s.window| < s.windowSize {
      assert s.windowSize == j.W();
      hide Synced, Job.Valid;
      PushSynced(j, s);
      FillSynced(j, S.Push(j.ServerHost(), s), S.Less(fault));
    }
  }

  /** `fillWindow` leaves a full window and a send queue that is its tail. */
  lemma FillOk(j: Job, s: S.Server, fault: S.Fault)
    requires j.Valid() && ServerOk(j, s) && s.mode == S.FILL_WINDOW
    requires BaseOf(s) + j.W() < U32_SIZE
    ensures var s1 := S.Fill(j.ServerHost(), s, fault);
      s1.mode != S.ERROR ==> ServerOk(j, s1) && s1.mode == S.SEND_WINDOW && BaseOf(s1) == BaseOf(s)
  {
    var s1 := S.Fill(j.ServerHost(), s, fault);
    if s1.mode != S.ERROR {
      FillSynced(j, s, fault);
      S.FillDisciplined(j.ServerHost(), s, fault);
    }
  }

  /** `sendWindow` changes neither the window nor the cursor; what it sends are packets of the window, in order. */
  lemma SendOk(j: Job, s: S.Server, fault: S.Fault)
    requires ServerOk(j, s) && s.mode == S.SEND_WINDOW
    ensures var (s1, sent) := S.Send(s, fault);
      && (s1.mode != S.ERROR ==> ServerOk(j, s1) && s1.mode == S.WAIT_RR && sent == s.outBuf)
      && BaseOf(s1) == BaseOf(s) && s1.sequence == s.sequence && s1.retries == s.retries
      && |sent| <= |s.outBuf| <= j.W() && 0 <= BaseOf(s) <= s.sequence - |s.outBuf|
      && s.sequence == BaseOf(s) + j.W() && s1.mode != S.INIT
      && forall i :: 0 <= i < |sent| ==> sent[i] == Dat(j, s.sequence - |s.outBuf| + i)
  {
    hide Dat;
    var (s1, sent) := S.Send(s, fault);
    forall i | 0 <= i < |sent|
      ensures sent[i] == Dat(j, s.sequence - |s.outBuf| + i)
    {
      assert sent[i] == s.window[j.W() - |s.outBuf| + i];
    }
  }

  /** RR(k) takes packets up to k off the window: the new base is min(k + 1, sequence), however large k is. */
  lemma AckOk(j: Job, s: S.Server, k: uint32)
    requires j.Valid() && ServerOk(j, s) && s.mode == S.WAIT_RR && BaseOf(s) <= k
    ensures var s1 := s.(window := s.window[S.Acked(s.window, k)..], mode := S.FILL_WINDOW);
      && ServerOk(j, s1) && s1.sequence == s.sequence
      && BaseOf(s1) == Min(k + 1, s.sequence)
  {
    hide Dat;
    FrontIsBase(j, s);
  }

  /** A rewind puts the cursor back on packet k if its 32-bit offset does not wrap. */
  lemma RewindOk(j: Job, s: S.Server, k: uint32, fault: S.Fault)
    requires j.Valid() && ServerOk(j, s) && s.mode == S.WAIT_RR && j.B() * k < U32_SIZE
    ensures var s1 := S.Rewind(s, k, fault);
      if fault == S.After(0) then s1.mode == S.ERROR
      else ServerOk(j, s1) && s1.mode == S.FILL_WINDOW && BaseOf(s1) == s1.sequence == k && s1.offset == j.B() * k
  {
    hide Dat;
    var offset := s.bufferSize * k;
    assert offset == j.B() * k == k * j.B();
    assert offset % U32_SIZE == offset;
  }

  /** Wrapped or not, a rewind empties the queues and goes on from packet k. */
  lemma RewindMoves(j: Job, s: S.Server, k: uint32, fault: S.Fault)
    requires j.Valid() && ServerOk(j, s) && s.mode == S.WAIT_RR
    ensures var s1 := S.Rewind(s, k, fault);
      if fault == S.After(0) then s1.mode == S.ERROR
      else
        && s1.mode == S.FILL_WINDOW && s1.window == [] && s1.outBuf == [] && s1.sequence == k
        && s1.offset == (j.B() * k) % U32_SIZE
        && (j.B() * k < U32_SIZE ==> ServerOk(j, s1))
  {
    hide ServerOk;
    if j.B() * k < U32_SIZE {
      RewindOk(j, s, k, fault);
    }
    assert s.bufferSize == j.B() by {
      SyncedSizes(j, s);
    }
  }

  lemma SyncedSizes(j: Job, s: S.Server)
    requires ServerOk(j, s)
    ensures s.bufferSize == j.B() && s.windowSize == j.W() && s.file == j.File()
  {
  }

  /** The event that makes a waiting server rewind: an intact REJ below its window. */
  predicate Rewinds(j: Job, s: S.Server, e: Event) {
    s.mode == S.WAIT_RR && e.Arrive? && Intact(j.inCksum, e.p) && e.p.typ == PKT_TYPE_REJ && e.p.sequence < BaseOf(s)
  }

  /** The event makes a waiting server rewind to an offset that 32 bits do not hold. */
  predicate Overruns(j: Job, s: S.Server, e: Event) {
    Rewinds(j, s, e) && j.B() * e.p.sequence >= U32_SIZE
  }

  /**
   * Whatever arrives at WAIT_RR: RR(k) moves the base to min(k + 1, sequence) or nowhere, REJ(k) queues the whole
   * window or rewinds to k, everything else moves nothing. The window stays a run of the file; only a rewind whose
   * offset wraps loses the cursor.
   */
  lemma WaitOk(j: Job, s: S.Server, turn: S.Turn)
    requires j.Valid() && ServerOk(j, s) && s.mode == S.WAIT_RR
    ensures var s1 := S.WaitRR(j.ServerHost(), s, turn);
      s1.mode != S.ERROR ==>
        && S.Active(s1) && S.Disciplined(s1)
        && (s1.sequence, BaseOf(s1)) == Moved(j, s, turn.event)
        && (s1.mode == S.WAIT_RR ==> s1 == s.(retries := s1.retries))
        && (Rewinds(j, s, turn.event) ==> s1.window == [] && s1.offset == (j.B() * turn.event.p.sequence) % U32_SIZE)
        && (!Overruns(j, s, turn.event) ==> ServerOk(j, s1))
  {
    hide S.Rewind, Dat, S.Acked;
    FrontIsBase(j, s);
    S.WaitDisciplined(j.ServerHost(), s, turn);
    var (retries, r) := Receive(j.inCksum, s.retries, turn.event);
    if r.Got? {
      var k := r.p.sequence;
      if r.p.typ == PKT_TYPE_RR && k >= BaseOf(s) {
        AckOk(j, s, k);
      } else if r.p.typ == PKT_TYPE_REJ && k < BaseOf(s) {
        RewindMoves(j, s.(retries := retries), k, turn.fault);
      }
    }
  }

  /** The abstract server: how an event moves the pair (next number to read, base). */
  function Moved(j: Job, s: S.Server, e: Event): (int, int) {
    if !e.Arrive? || !Intact(j.inCksum, e.p) then (s.sequence, BaseOf(s))
    else if e.p.typ == PKT_TYPE_RR && e.p.sequence >= BaseOf(s) then (s.sequence, Min(e.p.sequence + 1, s.sequence))
    else if e.p.typ == PKT_TYPE_REJ && e.p.sequence < BaseOf(s) then (e.p.sequence, e.p.sequence)
    else (s.sequence, BaseOf(s))
  }

  // ----- the client's output

  /** How many packets of the file the client has written; a failed write has counted one too many. */
  function Stored(j: Job, c: C.Client): nat {
    if c.mode == C.ERROR && c.output != Upto(j, c.sequence) && c.sequence > 0 then c.sequence - 1 else c.sequence
  }

  /** A client that runs has stored what it expects to have; in any case it has not stored more. */
  lemma StoredBounds(j: Job, c: C.Client)
    ensures Stored(j, c) <= c.sequence
    ensures c.mode != C.ERROR ==> Stored(j, c) == c.sequence
  {
  }

  ghost predicate ClientOk(j: Job, c: C.Client) {
    && c.output == Upto(j, Stored(j, c))
    && match c.mode
       case INIT => c.sequence == 0
       case RECV_PACKETS => c.sequence <= j.Last()
       case DONE => c.sequence == j.Last() + 1 && c.output == j.File()
       case ERROR => c.sequence <= j.Last() + 1
  }

  /** What the client may send once it has stored `n` packets: no acknowledgement of what it has not written. */
  predicate AnswerOk(j: Job, n: nat, p: Packet) {
    && (p.typ == PKT_TYPE_RR ==> p.sequence < n && p.sequence < j.Last())
    && (p.typ == PKT_TYPE_REJ ==> p.sequence <= n && p.sequence <= j.Last())
  }

  lemma InitStepOk(j: Job, c: C.Client, turn: C.Turn)
    requires ClientOk(j, c) && c.mode == C.INIT
    ensures var (c1, sent) := C.InitStep(j.ClientHost(), j.req, c, turn);
      && ClientOk(j, c1) && c1.sequence == 0 && c1.mode != C.DONE
      && forall p :: p in sent ==> p.typ != PKT_TYPE_RR && p.typ != PKT_TYPE_REJ
  {
  }

  /** Packet k of the file carries chunk k, and is shorter than a buffer exactly when it is the last one. */
  lemma DatCarriesChunk(j: Job, k: nat)
    requires j.Valid() && k < U32_SIZE
    ensures var p := Dat(j, k);
      && p.typ == PKT_TYPE_DAT && p.sequence == k
      && C.Written(j.ClientHost(), p) == Chunk(j.File(), j.B(), k)
      && (p.size < j.B() <==> j.Last() <= k)
  {
    ShortFromLastChunk(j.File(), j.B(), k);
    var chunk := Chunk(j.File(), j.B(), k);
    assert Pad(chunk)[..|chunk|] == chunk;
  }

  lemma WholeFile(j: Job)
    requires j.Valid()
    ensures Upto(j, j.Last() + 1) == j.File()
  {
    PrefixAll(j.File(), j.B(), j.Last() + 1);
  }

  /** The file packet the client waits for extends its output by the next chunk, and the last one completes it. */
  lemma AcceptOk(j: Job, c: C.Client, turn: C.Turn)
    requires j.Valid() && ClientOk(j, c) && c.mode == C.RECV_PACKETS
    requires turn.event == Arrive(Dat(j, c.sequence)) && !turn.write.Short?
    ensures var (c1, sent) := C.RecvPackets(j.ClientHost(), j.req, c, turn);
      && ClientOk(j, c1) && c1.sequence == c.sequence + 1 && c.output <= c1.output
      && c1.retries == PKT_TRNSMAX
      && (turn.write.All? && turn.sendOk && c.sequence < j.Last() ==>
            c1.mode == C.RECV_PACKETS && sent == [RrPkt(j.inCksum, c.sequence)])
      && (turn.write.All? && c.sequence == j.Last() ==> c1.mode == C.DONE)
      && (c.sequence == j.Last() ==> sent == [])
      && Stored(j, c) <= Stored(j, c1)
      && forall p :: p in sent ==> AnswerOk(j, Stored(j, c1), p)
  {
    var k := c.sequence;
    hide Chunk, Prefix, RrPkt, Dat, Seal, Receive, C.Written, Job.Last;
    NumbersFit(j);
    DatCarriesChunk(j, k);
    SealedIsAccepted(j.inCksum, Dat(j, k), c.retries);
    DatIsSealed(j, k);
    PrefixStep(j.File(), j.B(), k);
    ControlFields(j.inCksum, k);
    WholeFile(j);
  }

  lemma DatIsSealed(j: Job, k: nat)
    ensures Dat(j, k) == Seal(j.inCksum, Dat(j, k))
  {
  }

  lemma ControlFields(cksum: Checksum, k: uint32)
    ensures RrPkt(cksum, k).typ == PKT_TYPE_RR && RrPkt(cksum, k).sequence == k && Intact(cksum, RrPkt(cksum, k))
    ensures RejPkt(cksum, k).typ == PKT_TYPE_REJ && RejPkt(cksum, k).sequence == k && Intact(cksum, RejPkt(cksum, k))
  {
  }

  /**
   * A receiving client answers every reception it survives with exactly one packet, unless it ends the transfer: RR
   * with the number it got if that is no higher than the one it waits for, REJ with the one it waits for otherwise.
   */
  lemma OneAnswer(j: Job, c: C.Client, turn: C.Turn)
    requires c.mode == C.RECV_PACKETS && !turn.event.RecvError? && turn.write.All? && turn.sendOk
    ensures var (c1, sent) := C.RecvPackets(j.ClientHost(), j.req, c, turn);
      var e := turn.event;
      c1.mode != C.DONE ==>
        sent == [if e.Arrive? && Intact(j.inCksum, e.p) && e.p.sequence <= c.sequence
                 then RrPkt(j.inCksum, e.p.sequence)
                 else RejPkt(j.inCksum, c.sequence)]
  {
  }

  /** An event that makes a receiving client write: an intact packet with the number it waits for. */
  predicate Expected(j: Job, c: C.Client, e: Event) {
    c.mode == C.RECV_PACKETS && e.Arrive? && Intact(j.inCksum, e.p) && e.p.sequence == c.sequence
  }

  /** A `write` that fails ends the transfer with the output as it was, whatever packet it was for. */
  lemma FailedWriteOk(j: Job, c: C.Client, turn: C.Turn)
    requires j.Valid() && ClientOk(j, c) && Expected(j, c, turn.event) && turn.write.Fails?
    ensures var (c1, sent) := C.RecvPackets(j.ClientHost(), j.req, c, turn);
      && ClientOk(j, c1) && c1.output == c.output && sent == []
      && Stored(j, c) <= Stored(j, c1)
  {
    hide RrPkt, RejPkt, Prefix;
    assert Inc(c.sequence) == c.sequence + 1;
  }

  /** A packet with another number than the awaited one, or none, leaves output and number alone. */
  lemma UnexpectedOk(j: Job, c: C.Client, turn: C.Turn)
    requires j.Valid() && ClientOk(j, c) && c.mode == C.RECV_PACKETS && !Expected(j, c, turn.event)
    ensures var (c1, sent) := C.RecvPackets(j.ClientHost(), j.req, c, turn);
      && c1 == c.(mode := c1.mode, retries := c1.retries) && (c1.mode == C.RECV_PACKETS || c1.mode == C.ERROR)
      && Stored(j, c1) == Stored(j, c)
      && forall p :: p in sent ==> AnswerOk(j, Stored(j, c1), p)
  {
    hide RrPkt, RejPkt, Prefix;
    ControlFields(j.inCksum, c.sequence);
    if turn.event.Arrive? {
      ControlFields(j.inCksum, turn.event.p.sequence);
    }
  }

  /** Any event but a foreign packet with the expected number keeps the client's output a prefix of the file. */
  lemma ClientStepOk(j: Job, c: C.Client, turn: C.Turn)
    requires j.Valid() && ClientOk(j, c) && C.Live(c) && !turn.write.Short?
    requires Expected(j, c, turn.event) && turn.write.All? ==> turn.event.p == Dat(j, c.sequence)
    ensures var (c1, sent) := C.Step(j.ClientHost(), j.req, c, turn);
      && ClientOk(j, c1) && c.output <= c1.output
      && Stored(j, c) <= Stored(j, c1)
      && forall p :: p in sent ==> AnswerOk(j, Stored(j, c1), p)
  {
    hide Dat, AnswerOk, C.RecvPackets, C.InitStep;
    if c.mode == C.INIT {
      InitStepOk(j, c, turn);
      InitAnswersOk(j, c, turn);
    } else if !Expected(j, c, turn.event) {
      UnexpectedOk(j, c, turn);
    } else if turn.write.Fails? {
      FailedWriteOk(j, c, turn);
    } else {
      AcceptOk(j, c, turn);
    }
  }

  lemma InitAnswersOk(j: Job, c: C.Client, turn: C.Turn)
    requires ClientOk(j, c) && c.mode == C.INIT
    ensures var (c1, sent) := C.InitStep(j.ClientHost(), j.req, c, turn);
      Stored(j, c) <= Stored(j, c1) && forall p :: p in sent ==> AnswerOk(j, Stored(j, c1), p)
  {
    InitStepOk(j, c, turn);
    hide C.InitStep;
  }

  // ----- both sides

  /** A number below Last has its offset inside the file; if 32 bits hold the largest of these they hold it. */
  lemma OffsetFits(j: Job, k: nat)
    requires j.Valid() && k < j.Last()
    ensures j.B() * k <= |j.File()|
    ensures j.OffsetsFit() ==> j.B() * k < U32_SIZE
  {
    LastChunkBounds(j.File(), j.B());
    MulLe(k, j.Last(), j.B());
    MulLe(k, j.Last() - 1, j.B());
  }

  lemma DatFields(j: Job, k: nat)
    requires k < U32_SIZE
    ensures Dat(j, k).sequence == k && Dat(j, k).typ == PKT_TYPE_DAT && Intact(j.inCksum, Dat(j, k))
  {
  }

  /** The server never gets ahead of what the client has stored, and never lets go of the last packet. */
  ghost predicate Behind(j: Job, s: S.Server, stored: nat) {
    ServerOk(j, s) && BaseOf(s) <= j.Last() && BaseOf(s) <= stored
  }

  /** A packet of the file that the server may send. */
  predicate FilePacket(j: Job, p: Packet) {
    p.sequence < j.Last() + j.W() && p == Dat(j, p.sequence)
  }

  /** Fed only answers a client with `stored` packets may give, the server stays behind it and sends the file. */
  lemma ServerStepOk(j: Job, s: S.Server, stored: nat, turn: S.Turn)
    requires j.Valid() && S.Active(s) && Behind(j, s, stored)
    requires s.mode == S.WAIT_RR && turn.event.Arrive? && Intact(j.inCksum, turn.event.p) ==>
               AnswerOk(j, stored, turn.event.p)
    requires !Overruns(j, s, turn.event)
    ensures var (s1, sent) := S.Step(j.ServerHost(), s, turn);
      && s1.mode != S.INIT
      && (S.Active(s1) ==> Behind(j, s1, stored))
      && forall p :: p in sent ==> FilePacket(j, p)
  {
    hide Dat, S.InitStep, S.Fill, S.Send, S.WaitRR, ServerOk;
    match s.mode {
      case FILL_WINDOW =>
        FillOk(j, s, turn.fault);
        FillIsActive(j, s, turn.fault);
      case SEND_WINDOW =>
        SendOk(j, s, turn.fault);
        SentAreFilePackets(j, s, turn.fault);
      case WAIT_RR =>
        WaitOk(j, s, turn);
        WaitIsNotInit(j, s, turn);
    }
  }

  lemma FillIsActive(j: Job, s: S.Server, fault: S.Fault)
    ensures S.Fill(j.ServerHost(), s, fault).mode == S.ERROR || S.Fill(j.ServerHost(), s, fault).mode == S.SEND_WINDOW
  {
    S.FillMode(j.ServerHost(), s, fault);
  }

  lemma WaitIsNotInit(j: Job, s: S.Server, turn: S.Turn)
    requires s.mode == S.WAIT_RR
    ensures S.WaitRR(j.ServerHost(), s, turn).mode == S.ERROR || S.Active(S.WaitRR(j.ServerHost(), s, turn))
  {
  }

  lemma NumbersFit(j: Job)
    requires j.Valid()
    ensures 1 <= j.W() && j.Last() + j.W() < U32_SIZE
  {
  }

  lemma SentAreFilePackets(j: Job, s: S.Server, fault: S.Fault)
    requires j.Valid() && ServerOk(j, s) && s.mode == S.SEND_WINDOW && BaseOf(s) <= j.Last()
    ensures S.Send(s, fault).0.mode != S.INIT
    ensures forall p :: p in S.Send(s, fault).1 ==>
      FilePacket(j, p) && BaseOf(s) <= p.sequence < s.sequence
  {
    hide ServerOk, S.Send, Dat, Job.Valid, Job.Last, BaseOf;
    NumbersFit(j);
    SendOk(j, s, fault);
    RunOfDats(j, S.Send(s, fault).1, s.sequence - |s.outBuf|);
  }

  lemma RunOfDats(j: Job, sent: seq<Packet>, lo: nat)
    requires lo + |sent| <= U32_SIZE
    requires forall i :: 0 <= i < |sent| ==> sent[i] == Dat(j, lo + i)
    ensures forall p :: p in sent ==> lo <= p.sequence < lo + |sent| && p == Dat(j, p.sequence)
  {
    hide Dat;
    forall p | p in sent
      ensures lo <= p.sequence < lo + |sent| && p == Dat(j, p.sequence)
    {
      var i :| 0 <= i < |sent| && sent[i] == p;
      DatFields(j, lo + i);
    }
  }
}
