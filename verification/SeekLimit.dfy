/** Files too long for `lseek`: its argument is a 32-bit product, and what is lost when that wraps. */
module SeekLimit {
  import opened Packets
  import opened Chunks
  import opened Transfers
  import opened Network
  import opened Handshake
  import opened EndToEnd
  import opened Recovery
  import S = ServerSpec
  import C = ClientSpec

  // ----- the cursor

  /**
   * Over clean runs from the fork the window is a run of the file and the cursor stands behind it in every state
   * reached, if and only if 32 bits hold the offset of every packet before the last.
   */
  lemma CursorSafeExactly(j: Job, n0: Net)
    requires j.Valid() && ForkStart(j, n0)
    ensures (forall n :: CleanlyReaches(j, n0, n) && S.Active(n.server) ==> Synced(j, n.server)) <==> j.OffsetsFit()
  {
    if j.OffsetsFit() {
      forall n | CleanlyReaches(j, n0, n) && S.Active(n.server)
        ensures Synced(j, n.server)
      {
        ReachesWholeInv(j, n0, n);
        ActiveIsBehind(j, n);
      }
    } else {
      var n := CursorLost(j, n0);
    }
  }

  lemma CursorLost(j: Job, n0: Net) returns (n1: Net)
    requires j.Valid() && ForkStart(j, n0) && !j.OffsetsFit()
    ensures CleanlyReaches(j, n0, n1) && S.Active(n1.server) && !Synced(j, n1.server)
  {
    var m := j.Last() - 1;
    assert m < j.Last() && j.B() * m >= U32_SIZE;
    hide Step, Synced, DataInv, CleanlyReaches, RejPkt, Job.Last, Job.OffsetsFit;
    var n := RewindsHappen(j, n0, m);
    var p := RejPkt(j.inCksum, m);
    ControlFields(j.inCksum, m);
    n1 := Step(j, n, ServerGets(p));
    CleanlyStep(j, n, ServerGets(p));
    CleanlyTrans(j, n0, n, n1);
    RewindOverruns(j, n, m);
  }

  /** A rewind whose product wraps leaves the cursor somewhere else. */
  lemma RewindOverruns(j: Job, n: Net, m: uint32)
    requires j.Valid() && DataInv(j, n) && n.server.mode == S.WAIT_RR && m < j.Last()
    requires Rewinds(j, n.server, Arrive(RejPkt(j.inCksum, m))) && j.B() * m >= U32_SIZE
    ensures var s1 := Step(j, n, ServerGets(RejPkt(j.inCksum, m))).server;
      S.Active(s1) && !Synced(j, s1)
  {
    ControlFields(j.inCksum, m);
    FrontIsBase(j, n.server);
    OffsetFits(j, m);
    var s1 := Step(j, n, ServerGets(RejPkt(j.inCksum, m))).server;
    hide Dat, RejPkt, Intact;
    assert s1.sequence == m && s1.offset == (j.B() * m) % U32_SIZE;
  }

  // ----- the output

  /** A data packet with number k that fills its buffer. */
  predicate Full(j: Job, p: Packet, k: nat) {
    p.typ == PKT_TYPE_DAT && p.sequence == k && p.size == j.B() && Intact(j.inCksum, p)
  }

  /** The server is about to read packet k, one of the last two, from where full buffers follow up to the last. */
  predicate Astray(j: Job, s: S.Server, k: nat) {
    && s.mode == S.FILL_WINDOW && s.retries >= 1 && s.window == [] && s.outBuf == []
    && s.bufferSize == j.B() && s.windowSize == j.W() && s.file == j.File()
    && s.sequence == k && (k == j.Last() || k == j.Last() - 1)
    && s.offset + j.B() <= |s.file|
    && (k < j.Last() ==> s.offset + j.B() + j.B() <= |s.file|)
  }

  /** A wrapped product lies at least 2^32 bytes, so more than two buffers, before the place it stands for. */
  lemma WrapsBack(j: Job, m: nat)
    requires j.Valid() && m == j.Last() - 1 && j.B() * m >= U32_SIZE
    ensures (j.B() * m) % U32_SIZE + j.B() + j.B() <= |j.File()|
  {
    LastChunkBounds(j.File(), j.B());
    var b, last, product := j.B(), j.Last(), j.B() * m;
    assert last * b == product + b;
    assert product % U32_SIZE <= product - U32_SIZE;
  }

  /** The delayed REJ for the last packet but one sends the server astray. */
  lemma GoesAstray(j: Job, n: Net, m: nat)
    requires j.Valid() && m == j.Last() - 1 && j.B() * m >= U32_SIZE
    requires Level(j, n, m + 1) && RejPkt(j.inCksum, m) in n.toServer
    ensures var n1 := Step(j, n, ServerGets(RejPkt(j.inCksum, m)));
      && CleanlyReaches(j, n, n1)
      && n1.client == n.client && n1.toServer == n.toServer && n1.toClient == n.toClient
      && Astray(j, n1.server, m)
  {
    var p := RejPkt(j.inCksum, m);
    ControlFields(j.inCksum, m);
    CleanlyStep(j, n, ServerGets(p));
    FrontIsBase(j, n.server);
    WrapsBack(j, m);
    WaitOk(j, n.server, S.Turn(Arrive(p), S.NoFault));
    hide Dat, RejPkt, S.Disciplined;
    var s1 := Step(j, n, ServerGets(p)).server;
    assert Rewinds(j, n.server, Arrive(p));
    assert s1.retries == PKT_TRNSMAX && s1.sequence == m;
  }

  /** Reading on from there fills a buffer. */
  lemma ReadsFull(j: Job, s: S.Server, k: nat)
    requires j.Valid() && S.Push(j.ServerHost(), s).window != [] && s.sequence == k < U32_SIZE
    requires s.bufferSize == j.B() && s.offset + j.B() <= |s.file|
    ensures var s1 := S.Push(j.ServerHost(), s);
      && |s1.window| == |s.window| + 1 && Full(j, s1.window[|s.window|], k)
      && s1.offset == s.offset + j.B()
      && s1.sequence == (k + 1) % U32_SIZE
  {
  }

  /** What a server that has gone astray reads next. */
  lemma ReadsOn(j: Job, s: S.Server, k: nat)
    requires j.Valid() && Astray(j, s, k)
    ensures var s1 := S.Fill(j.ServerHost(), s, S.NoFault);
      && |s1.outBuf| == j.W() >= 1 && Full(j, s1.outBuf[0], k)
      && (j.W() >= 2 && k < j.Last() ==> Full(j, s1.outBuf[1], k + 1))
      && (j.W() == 1 ==>
            s1 == s.(mode := S.SEND_WINDOW, window := [s1.outBuf[0]], outBuf := [s1.outBuf[0]],
                     sequence := (k + 1) % U32_SIZE, offset := s.offset + j.B()))
  {
    NumbersFit(j);
    var h := j.ServerHost();
    S.FillStarts(h, s);
    ReadsFull(j, s, k);
    var t := S.Push(h, s);
    if j.W() >= 2 && k < j.Last() {
      ReadsFull(j, t, k + 1);
    }
    hide S.Fill, DatPkt, Read, Full, Job.Valid, Job.Last;
    assert |t.window| == 1 ==> t.window == [t.window[0]];
  }

  /** What a server that has gone astray sends next. */
  lemma SendsFull(j: Job, n: Net, k: nat) returns (n2: Net, p: Packet, q: Packet)
    requires j.Valid() && Astray(j, n.server, k)
    ensures CleanlyReaches(j, n, n2)
    ensures n2.client == n.client && n2.toServer == n.toServer && n.toClient <= n2.toClient
    ensures p in n2.toClient && Full(j, p, k)
    ensures j.W() >= 2 && k < j.Last() ==> q in n2.toClient && Full(j, q, k + 1)
    ensures j.W() == 1 ==>
      && n2.server == n.server.(mode := S.WAIT_RR, window := [p], sequence := (k + 1) % U32_SIZE,
                                offset := n.server.offset + j.B())
  {
    n2 := Step(j, Step(j, n, ServerQuiet()), ServerQuiet());
    FillsAndSends(j, n);
    ReadsOn(j, n.server, k);
    var sent := S.Fill(j.ServerHost(), n.server, S.NoFault).outBuf;
    hide S.Fill, Full, CleanlyReaches, Job.Valid, Job.Last, Step;
    p, q := sent[0], sent[0];
    assert p in Elements(sent);
    if j.W() >= 2 {
      q := sent[1];
      assert q in Elements(sent);
    }
  }

  /** With a window of one packet, RR(k) makes the server read on astray. */
  lemma StaysAstray(j: Job, n: Net, k: nat, p: Packet)
    requires j.Valid() && j.W() == 1 && k == j.Last() - 1 && Full(j, p, k)
    requires n.server.mode == S.WAIT_RR
    requires Astray(j, n.server.(mode := S.FILL_WINDOW, window := [], sequence := k + 1), k + 1)
    requires n.server.window == [p] && n.server.sequence == k + 1 && RrPkt(j.inCksum, k) in n.toServer
    ensures var n1 := Step(j, n, ServerGets(RrPkt(j.inCksum, k)));
      && CleanlyReaches(j, n, n1)
      && n1.client == n.client && n1.toServer == n.toServer && n1.toClient == n.toClient
      && Astray(j, n1.server, k + 1)
  {
    ControlFields(j.inCksum, k);
    hide RrPkt;
    CleanlyStep(j, n, ServerGets(RrPkt(j.inCksum, k)));
  }

  /** Either way a full buffer goes out under the number of the last packet. */
  lemma LastIsFull(j: Job, n: Net, m: nat) returns (n': Net, q: Packet)
    requires j.Valid() && m == j.Last() - 1 && Astray(j, n.server, m) && RrPkt(j.inCksum, m) in n.toServer
    ensures CleanlyReaches(j, n, n') && n'.client == n.client
    ensures q in n'.toClient && Full(j, q, j.Last())
  {
    NumbersFit(j);
    hide Step, CleanlyReaches, RrPkt, Job.Last, Job.Valid, Full;
    var n1, p, q1 := SendsFull(j, n, m);
    n', q := n1, q1;
    if j.W() == 1 {
      StaysAstray(j, n1, m, p);
      var n2 := Step(j, n1, ServerGets(RrPkt(j.inCksum, m)));
      var n3, p', q' := SendsFull(j, n2, m + 1);
      CleanlyTrans(j, n, n1, n2);
      CleanlyTrans(j, n, n2, n3);
      n', q := n3, p';
    }
  }

  /** A full packet in the place of the last: the client writes past the end of the file and goes on. */
  lemma OverWritten(j: Job, n: Net, p: Packet)
    requires j.Valid() && ClientOk(j, n.client) && n.client.mode == C.RECV_PACKETS && n.client.retries >= 1
    requires n.client.sequence == j.Last() && p in n.toClient && Full(j, p, j.Last())
    ensures var n1 := Step(j, n, ClientGets(p));
      CleanlyReaches(j, n, n1) && n1.client.mode == C.RECV_PACKETS && !ClientOk(j, n1.client)
      && |n1.client.output| > |j.File()|
  {
    NumbersFit(j);
    ControlFields(j.inCksum, p.sequence);
    assert !Control(j, p) by {
      hide RrPkt, RejPkt;
    }
    CleanlyStep(j, n, ClientGets(p));
    UptoLast(j);
    hide Prefix, Control, Job.Last, RrPkt, C.Written;
  }

  lemma UptoLast(j: Job)
    requires j.Valid()
    ensures |Upto(j, j.Last())| + j.B() > |j.File()|
  {
    LastChunkBounds(j.File(), j.B());
    assert (j.Last() + 1) * j.B() == j.Last() * j.B() + j.B();
  }

  /** A file whose offsets do not fit is not delivered by every clean run. */
  lemma OutputLost(j: Job, n0: Net) returns (n': Net)
    requires j.Valid() && ForkStart(j, n0) && !j.OffsetsFit()
    ensures CleanlyReaches(j, n0, n') && !ClientOk(j, n'.client) && |n'.client.output| > |j.File()|
  {
    var m := j.Last() - 1;
    assert m < j.Last() && j.B() * m >= U32_SIZE;
    var n1 := LeavesBehind(j, n0, m);
    assert n1.client.mode == C.RECV_PACKETS && n1.client.retries >= 1 && n1.client.sequence == j.Last()
           && ClientOk(j, n1.client);
    hide Level, Step, CleanlyReaches, RejPkt, RrPkt, Job.Last, Job.OffsetsFit, Job.Valid, ClientOk, Full;
    var n2 := Step(j, n1, ServerGets(RejPkt(j.inCksum, m)));
    GoesAstray(j, n1, m);
    var n3, q := LastIsFull(j, n2, m);
    OverWritten(j, n3, q);
    n' := Step(j, n3, ClientGets(q));
    CleanlyTrans(j, n0, n1, n2);
    CleanlyTrans(j, n0, n2, n3);
    CleanlyTrans(j, n0, n3, n');
  }

  /**
   * The same limit for what the client writes: every clean run from the fork keeps the output right if and only if 32
   * bits hold the offset of every packet before the last.
   */
  lemma OutputSafeExactly(j: Job, n0: Net)
    requires j.Valid() && ForkStart(j, n0)
    ensures (forall n :: CleanlyReaches(j, n0, n) ==> ClientOk(j, n.client)) <==> j.OffsetsFit()
  {
    if j.OffsetsFit() {
      forall n | CleanlyReaches(j, n0, n)
        ensures ClientOk(j, n.client)
      {
        ReachesWholeInv(j, n0, n);
      }
    } else {
      var n := OutputLost(j, n0);
    }
  }
}
