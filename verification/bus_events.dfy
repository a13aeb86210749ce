/**
 * What an I2C master puts on the two-wire bus, as a sequence of events, and
 * which sequences of events are made of complete transfers.
 *
 * A transfer is a START (or repeated START) carrying the 7-bit slave address,
 * the direction and the number of data bytes the master has programmed,
 * followed by exactly that many data bytes in that direction. With automatic
 * end the peripheral then issues a STOP; without it the master must follow
 * with a repeated START. A register write is one two-byte write transfer; a
 * register read is the combined format of section 3.1.10 of the I2C-bus
 * specification (NXP UM10204): the register address written without STOP,
 * then a repeated START in the read direction.
 *
 * The rules are an automaton over Phase, run event by event (RunFrom).
 */
module BusEvents {

  datatype Dir = Wr | Rd

  datatype Event =
    | Start(addr: bv8, dir: Dir, nbytes: nat, autoEnd: bool)
    | Tx(b: bv8)
    | Rx(b: bv8)
    | Stop

  /**
   * Where the bus stands between two events: free; inside a transfer in
   * direction `dir` that still has `left` data bytes to move; or broken, once
   * an event came that the rules do not allow. A transfer without automatic end
   * that has moved all its bytes holds the bus until the next (repeated) START.
   */
  datatype Phase = Idle | Moving(dir: Dir, left: nat, autoEnd: bool) | Broken

  /** A transfer with nothing left to move that waits for a repeated START. */
  predicate Held(p: Phase) {
    p.Moving? && p.left == 0 && !p.autoEnd
  }

  /** The rules for one event. */
  function Step(p: Phase, e: Event): Phase {
    match e
    case Start(_, dir, n, autoEnd) =>
      if p == Idle || Held(p) then Moving(dir, n, autoEnd) else Broken
    case Tx(_) =>
      if p.Moving? && p.dir == Wr && p.left > 0 then p.(left := p.left - 1) else Broken
    case Rx(_) =>
      if p.Moving? && p.dir == Rd && p.left > 0 then p.(left := p.left - 1) else Broken
    case Stop =>
      if p.Moving? && p.left == 0 && p.autoEnd then Idle else Broken
  }

  /** The phase reached from `p` through the events of `w`, in order. */
  function RunFrom(p: Phase, w: seq<Event>): Phase
    decreases |w|
  {
    if w == [] then p else Step(RunFrom(p, w[..|w| - 1]), w[|w| - 1])
  }

  /** `w` is made of complete transfers: from a free bus back to a free bus. */
  predicate Complete(w: seq<Event>) {
    RunFrom(Idle, w) == Idle
  }

  lemma RunSnoc(p: Phase, w: seq<Event>, e: Event)
    ensures RunFrom(p, w + [e]) == Step(RunFrom(p, w), e)
  {
    assert (w + [e])[..|w|] == w;
  }

  /** Running through `a + b` is running through `a`, then through `b`. */
  lemma {:induction false} RunAppend(p: Phase, a: seq<Event>, b: seq<Event>)
    ensures RunFrom(p, a + b) == RunFrom(RunFrom(p, a), b)
    decreases |b|
  {
    if b == [] {
      assert a + b == a;
    } else {
      var b', e := b[..|b| - 1], b[|b| - 1];
      assert b == b' + [e];
      assert a + b == (a + b') + [e];
      RunAppend(p, a, b');
      RunSnoc(p, a + b', e);
      RunSnoc(RunFrom(p, a), b', e);
    }
  }

  /** Complete transfers followed by complete transfers are complete transfers. */
  lemma CompleteAppend(a: seq<Event>, b: seq<Event>)
    requires Complete(a) && Complete(b)
    ensures Complete(a + b)
  {
    RunAppend(Idle, a, b);
  }

  /** One receive event per byte, in order. */
  function RxEvents(bs: seq<bv8>): (w: seq<Event>)
    ensures |w| == |bs|
  {
    if bs == [] then [] else RxEvents(bs[..|bs| - 1]) + [Rx(bs[|bs| - 1])]
  }

  lemma RxEventsAppend(bs: seq<bv8>, b: bv8)
    ensures RxEvents(bs + [b]) == RxEvents(bs) + [Rx(b)]
  {
    assert (bs + [b])[..|bs|] == bs;
  }

  /** Each received byte uses up one byte of a read transfer. */
  lemma {:induction false} RxEventsRun(k: nat, autoEnd: bool, bs: seq<bv8>)
    ensures RunFrom(Moving(Rd, k + |bs|, autoEnd), RxEvents(bs)) == Moving(Rd, k, autoEnd)
    decreases |bs|
  {
    if bs != [] {
      var init := bs[..|bs| - 1];
      RxEventsRun(k + 1, autoEnd, init);
      RxEventsAppend(init, bs[|bs| - 1]);
      assert bs == init + [bs[|bs| - 1]];
      RunSnoc(Moving(Rd, k + |bs|, autoEnd), RxEvents(init), Rx(bs[|bs| - 1]));
    }
  }

  /** A register write: one two-byte write transfer (register, value) with automatic end. */
  function WriteFrame(addr: bv8, reg: bv8, val: bv8): seq<Event> {
    [Start(addr, Wr, 2, true), Tx(reg), Tx(val), Stop]
  }

  /** The address phase of a combined-format read: register address, no STOP, repeated START. */
  function ReadHead(addr: bv8, reg: bv8, n: nat): seq<Event> {
    [Start(addr, Wr, 1, false), Tx(reg), Start(addr, Rd, n, true)]
  }

  /** A combined-format register read that returns `bytes`. */
  function CombinedRead(addr: bv8, reg: bv8, bytes: seq<bv8>): seq<Event> {
    ReadHead(addr, reg, |bytes|) + RxEvents(bytes) + [Stop]
  }

  lemma WriteFrameComplete(addr: bv8, reg: bv8, val: bv8)
    ensures Complete(WriteFrame(addr, reg, val))
  {
    var w := WriteFrame(addr, reg, val);
    RunSnoc(Idle, [], w[0]);
    RunSnoc(Idle, w[..1], w[1]);
    RunSnoc(Idle, w[..2], w[2]);
    RunSnoc(Idle, w[..3], w[3]);
    assert w[..1] == [] + [w[0]];
    assert w[..2] == w[..1] + [w[1]];
    assert w[..3] == w[..2] + [w[2]];
    assert w == w[..3] + [w[3]];
  }

  /**
   * A combined-format read is complete, and after its register address the
   * bus is held for the repeated START: the first transfer ends without STOP.
   */
  lemma CombinedReadComplete(addr: bv8, reg: bv8, bytes: seq<bv8>)
    ensures Complete(CombinedRead(addr, reg, bytes))
    ensures Held(RunFrom(Idle, ReadHead(addr, reg, |bytes|)[..2]))
  {
    var n := |bytes|;
    var h := ReadHead(addr, reg, n);
    RunSnoc(Idle, [], h[0]);
    RunSnoc(Idle, h[..1], h[1]);
    RunSnoc(Idle, h[..2], h[2]);
    assert h[..1] == [] + [h[0]];
    assert h[..2] == h[..1] + [h[1]];
    assert h == h[..2] + [h[2]];
    assert RunFrom(Idle, h) == Moving(Rd, n, true);
    RxEventsRun(0, true, bytes);
    RunAppend(Idle, h, RxEvents(bytes));
    RunSnoc(Idle, h + RxEvents(bytes), Stop);
  }
}
