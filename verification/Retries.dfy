/** The retry counters: what they count, and when a server in the data phase gives up. */
module Retries {
  import opened Packets
  import S = ServerSpec

  /** All but the last element. */
  function Before<T>(s: seq<T>): seq<T>
    requires s != []
  {
    s[..|s| - 1]
  }

  /** An intact packet with the number `n`. */
  predicate Carries(cksum: Checksum, e: Event, n: uint32) {
    e.Arrive? && Intact(cksum, e.p) && e.p.sequence == n
  }

  /** The number of timeouts since the last reception. */
  function Quiet(es: seq<Event>): (n: nat)
    ensures n <= |es|
    ensures forall i :: |es| - n <= i < |es| ==> es[i].Timeout?
    ensures n < |es| ==> !es[|es| - n - 1].Timeout?
  {
    if es == [] || !es[|es| - 1].Timeout? then 0 else Quiet(es[..|es| - 1]) + 1
  }

  predicate Corrupt(cksum: Checksum, e: Event) {
    e.Arrive? && !Intact(cksum, e.p)
  }

  /** Timeouts since the last reception, and one more if that reception was corrupt. */
  function Deficit(cksum: Checksum, es: seq<Event>): nat {
    var n := Quiet(es);
    if n < |es| && Corrupt(cksum, es[|es| - n - 1]) then n + 1 else n
  }

  /** How one more event moves the deficit: as `recvPacket` moves the counter, the other way. */
  lemma DeficitStep(cksum: Checksum, es: seq<Event>, e: Event, retries: int)
    requires retries == PKT_TRNSMAX - Deficit(cksum, es)
    ensures Receive(cksum, retries, e).0 == PKT_TRNSMAX - Deficit(cksum, es + [e])
  {
  }

  /** The deficit has reached the limit after some part of the trace. */
  ghost predicate Exhausted(cksum: Checksum, es: seq<Event>) {
    exists k :: 0 <= k <= |es| && Deficit(cksum, es[..k]) >= PKT_TRNSMAX
  }

  lemma NotExhausted(cksum: Checksum)
    ensures !Exhausted(cksum, [])
  {
    var none: seq<Event> := [];
    assert forall k :: 0 <= k <= 0 ==> none[..k] == [];
  }

  lemma ExhaustedStep(cksum: Checksum, es: seq<Event>, e: Event)
    ensures Exhausted(cksum, es + [e]) <==> Exhausted(cksum, es) || Deficit(cksum, es + [e]) >= PKT_TRNSMAX
  {
    var all := es + [e];
    assert all[..|all|] == all;
    assert forall k :: 0 <= k <= |es| ==> all[..k] == es[..k];
    if Exhausted(cksum, es) {
      var k :| 0 <= k <= |es| && Deficit(cksum, es[..k]) >= PKT_TRNSMAX;
      assert Deficit(cksum, all[..k]) >= PKT_TRNSMAX;
    }
  }

  // ----- the server

  /** From one wait to the next: a reception and, while the server runs, the refill and the sends that follow it. */
  function Cycle(h: S.Host, s: S.Server, e: Event): S.Server {
    var s1 := S.Step(h, s, S.Turn(e, S.NoFault)).0;
    if s1.mode == S.FILL_WINDOW && S.Live(s1) then S.Step(h, S.Step(h, s1, S.SILENCE).0, S.SILENCE).0 else s1
  }

  function Cycles(h: S.Host, s: S.Server, es: seq<Event>): S.Server
    decreases |es|
  {
    if es == [] then s else
    var s1 := Cycles(h, s, es[..|es| - 1]);
    if S.Live(s1) then Cycle(h, s1, es[|es| - 1]) else s1
  }

  /** A reception fails before the server has given up. */
  ghost predicate Breaks(cksum: Checksum, es: seq<Event>)
    decreases |es|
  {
    es != [] &&
    (|| Breaks(cksum, es[..|es| - 1])
     || (es[|es| - 1].RecvError? && !Exhausted(cksum, es[..|es| - 1])))
  }

  lemma CycleCounts(h: S.Host, s: S.Server, e: Event)
    requires s.mode == S.WAIT_RR && s.retries > 0
    ensures var s1 := Cycle(h, s, e);
      && s1.retries == Receive(h.inCksum, s.retries, e).0
      && (s1.mode == S.ERROR <==> e.RecvError?)
      && (s1.mode == S.ERROR || s1.mode == S.WAIT_RR || (s1.mode == S.FILL_WINDOW && s1.retries <= 0))
  {
    var s1 := S.Step(h, s, S.Turn(e, S.NoFault)).0;
    S.DataPassLeads(h, s, S.Turn(e, S.NoFault));
    S.FillMode(h, s1, S.NoFault);
    hide S.Fill, S.Acked, Intact;
  }

  /**
   * The same closed form for the server between waits, whose refills and sends do not touch the counter: it stops with
   * ERROR exactly if a reception fails before it has given up, gives up exactly when the deficit has reached ten, and
   * otherwise waits again.
   */
  lemma {:induction false} ServerGivesUpExactly(h: S.Host, s: S.Server, es: seq<Event>)
    requires s.mode == S.WAIT_RR && s.retries == 10
    ensures var s1 := Cycles(h, s, es);
      && (s1.mode == S.ERROR <==> Breaks(h.inCksum, es))
      && (s1.mode != S.ERROR ==>
            && (s1.retries <= 0 <==> Exhausted(h.inCksum, es))
            && (s1.retries > 0 ==> s1.mode == S.WAIT_RR && s1.retries == 10 - Deficit(h.inCksum, es)))
    decreases |es|
  {
    hide Cycle, Deficit, Exhausted;
    if es == [] {
      NotExhausted(h.inCksum);
      assert Deficit(h.inCksum, []) == 0 by {
        NoDeficit(h.inCksum);
      }
    } else {
      var before, e := es[..|es| - 1], es[|es| - 1];
      assert es == before + [e];
      ServerGivesUpExactly(h, s, before);
      ExhaustedStep(h.inCksum, before, e);
      var s0 := Cycles(h, s, before);
      if S.Live(s0) {
        CycleCounts(h, s0, e);
        DeficitStep(h.inCksum, before, e, s0.retries);
      }
    }
  }

  lemma NoDeficit(cksum: Checksum)
    ensures Deficit(cksum, []) == 0
  {
  }

  /** Without a failing reception, the server never stops with ERROR, however many seconds pass in silence. */
  lemma {:induction false} NoErrorUnlessBroken(h: S.Host, s: S.Server, es: seq<Event>)
    requires s.mode == S.WAIT_RR && s.retries == 10 && forall i :: 0 <= i < |es| ==> !es[i].RecvError?
    ensures Cycles(h, s, es).mode != S.ERROR
  {
    ServerGivesUpExactly(h, s, es);
    Unbroken(h.inCksum, es);
    hide Cycles, Deficit, Exhausted;
  }

  lemma {:induction false} Unbroken(cksum: Checksum, es: seq<Event>)
    requires forall i :: 0 <= i < |es| ==> !es[i].RecvError?
    ensures !Breaks(cksum, es)
    decreases |es|
  {
    if es != [] {
      Unbroken(cksum, es[..|es| - 1]);
    }
  }
}
