/**
 * The I2C1 register transaction engine (Project/I2C.c): a register-addressed
 * single-byte write and a combined-format multi-byte read, driven by writing
 * CR2 and TXDR, reading RXDR and spinning on ISR flags.
 *
 * The peripheral is the class I2C1. Its hardware side is a handful of
 * primitive steps: a write to CR2 (a START when the START bit is set), a write
 * to TXDR, a read of RXDR, and one abstract step per spin loop in which the
 * driver sees the flag it waits for. While the driver spins the peripheral
 * finishes what it was asked to do: a transfer with automatic end that has
 * moved all its bytes ends with a STOP. A step that waits for a flag requires
 * that the peripheral, in its modelled state, raises that flag; whether the
 * real bus ever gets there (an acknowledging slave, no arbitration loss) is
 * not modelled. What reaches the bus is appended to `trace`, each flag seen
 * to `waits`, together with the number of bus events that preceded it. The
 * transfer the peripheral is working on is `phase`; each event it emits is
 * one the bus rules (BusEvents.Step) allow in that phase, and moves the phase
 * on as those rules say.
 */
module I2c {
  import opened Bytes
  import opened BusEvents
  import opened Cr2

  /** Status flags of the peripheral the driver spins on (BusFree: ISR.BUSY is clear). */
  datatype Flag = BusFree | TXIS | TXE | TC | RXNE | STOPF

  /** The driver saw `flag` raised once `after` bus events had happened. */
  datatype Wait = Wait(flag: Flag, after: nat)

  /** The spins of one write call that starts when `n0` bus events have happened. */
  function WriteWaits(n0: nat): seq<Wait> {
    [Wait(BusFree, n0), Wait(TXIS, n0 + 1), Wait(TXIS, n0 + 2), Wait(TXE, n0 + 4)]
  }

  /** The RXNE spins of the receive loop: the k-th one after `from + k` bus events. */
  function RxWaits(from: nat, n: nat): (ws: seq<Wait>)
    ensures |ws| == n
  {
    if n == 0 then [] else RxWaits(from, n - 1) + [Wait(RXNE, from + n - 1)]
  }

  /** The spins of one read call of `n` bytes that starts when `n0` bus events have happened. */
  function ReadWaits(n0: nat, n: nat): seq<Wait> {
    [Wait(BusFree, n0), Wait(TXIS, n0 + 1), Wait(TC, n0 + 2)] + RxWaits(n0 + 3, n)
      + [Wait(STOPF, n0 + n + 4)]
  }

  /** Storing the next element over a sequence that is a filled prefix and an old suffix. */
  lemma PutNext<T>(got: seq<T>, b: T, d0: seq<T>)
    requires |got| < |d0|
    ensures (got + d0[|got|..])[|got| := b] == got + [b] + d0[|got| + 1..]
  {
  }

  /** Regrouping a concatenation (a helper about sequences). */
  lemma Assoc<T>(a: seq<T>, b: seq<T>, c: seq<T>)
    ensures a + b + c == a + (b + c)
  {
  }

  class I2C1 {
    var cr2: bv32
    /** Everything the peripheral has put on the bus, in order. */
    var trace: seq<Event>
    /** Every flag the driver has waited for, in order. */
    var waits: seq<Wait>
    /** The bytes the addressed slave will drive in read transfers, in order. */
    var incoming: seq<bv8>
    /** The transfer in progress (Idle: ISR.BUSY is clear). */
    var phase: Phase
    /** ISR.STOPF: set by every STOP; the driver never clears it. */
    var stopf: bool

    /**
     * Between driver calls the bus is free. (That it has then carried complete
     * transfers only follows from the traces Write and Read append; see
     * WriteFrameComplete, CombinedReadComplete and CompleteAppend.)
     */
    ghost predicate Quiescent()
      reads this
    {
      phase == Idle
    }

    /** A transfer with automatic end that has moved all its bytes: the STOP is due. */
    predicate StopDue()
      reads this
    {
      phase.Moving? && phase.left == 0 && phase.autoEnd
    }

    /** Whether the peripheral, in this state, raises `f` (so that a spin on it ends). */
    ghost predicate Raised(f: Flag)
      reads this
    {
      match f
      case BusFree => phase == Idle || StopDue()
      case TXIS => phase.Moving? && phase.dir == Wr && phase.left > 0
      case TXE => true   // a byte written to TXDR goes on to the bus at once
      case TC => Held(phase)
      case RXNE => phase.Moving? && phase.dir == Rd && phase.left > 0 && |incoming| > 0
      case STOPF => stopf || StopDue()
    }

    /** A peripheral after reset, facing a slave that will send `device`. */
    constructor (device: seq<bv8>)
      ensures Quiescent() && trace == [] && waits == [] && incoming == device
      ensures cr2 == 0 && !stopf
    {
      cr2, trace, waits, incoming := 0, [], [], device;
      phase, stopf := Idle, false;
    }

    /**
     * One spin loop on a flag, abstracted to the step in which the driver sees
     * it; meanwhile the peripheral issues a STOP that is due.
     */
    method Await(f: Flag)
      requires Raised(f)
      modifies this`trace, this`phase, this`stopf, this`waits
      ensures old(StopDue()) ==> trace == old(trace) + [Stop] && phase == Idle && stopf
      ensures !old(StopDue()) ==> trace == old(trace) && phase == old(phase) && stopf == old(stopf)
      ensures waits == old(waits) + [Wait(f, |trace|)]
    {
      AutoStop();
      waits := waits + [Wait(f, |trace|)];
    }

    /** The peripheral puts `e` on the bus, as the bus rules allow, and follows the rules to its next phase. */
    method Emit(e: Event)
      requires Step(phase, e) != Broken
      modifies this`trace, this`phase
      ensures trace == old(trace) + [e] && phase == Step(old(phase), e)
    {
      trace := trace + [e];
      phase := Step(phase, e);
    }

    /** The automatic STOP (which sets STOPF), if it is due. */
    method AutoStop()
      modifies this`trace, this`phase, this`stopf
      ensures old(StopDue()) ==> trace == old(trace) + [Stop] && phase == Idle && stopf
      ensures !old(StopDue()) ==> trace == old(trace) && phase == old(phase) && stopf == old(stopf)
    {
      if StopDue() {
        Emit(Stop);
        stopf := true;
      }
    }

    /**
     * A write to CR2. With START set the peripheral starts the transfer the word
     * describes: a START on a free bus, or a repeated START when a transfer
     * without automatic end has moved all its bytes.
     */
    method SetCr2(v: bv32)
      requires HasStart(v) ==> phase == Idle || Held(phase)
      modifies this`cr2, this`trace, this`phase
      ensures cr2 == v
      ensures !HasStart(v) ==> trace == old(trace) && phase == old(phase)
      ensures HasStart(v) ==>
        var n, ae := Value(NBytes(v)), IsAutoEnd(v);
        var dir := if IsRead(v) then Rd else Wr;
        trace == old(trace) + [Start(SlaveAddress7(v), dir, n, ae)] && phase == Moving(dir, n, ae)
    {
      cr2 := v;
      if HasStart(v) {
        var n := Value(NBytes(v));
        Emit(Start(SlaveAddress7(v), if IsRead(v) then Rd else Wr, n, IsAutoEnd(v)));
      }
    }

    /** A write to TXDR while the transfer in progress asks for a byte. */
    method WriteTxdr(b: bv8)
      requires Raised(TXIS)
      modifies this`trace, this`phase
      ensures trace == old(trace) + [Tx(b)] && phase == old(phase).(left := old(phase.left) - 1)
    {
      Emit(Tx(b));
    }

    /** A read of RXDR after the slave has sent a byte. */
    method ReadRxdr() returns (b: bv8)
      requires Raised(RXNE)
      modifies this`trace, this`phase, this`incoming
      ensures b == old(incoming[0]) && incoming == old(incoming[1..])
      ensures trace == old(trace) + [Rx(b)] && phase == old(phase).(left := old(phase.left) - 1)
    {
      b := incoming[0];
      incoming := incoming[1..];
      Emit(Rx(b));
    }

    /**
     * I2C1_Write: writes `data` to register `addr` of the slave at 7-bit
     * address `slave`. Once the bus is free, CR2 is cleared and set to start one
     * two-byte write transfer with automatic end; the register address goes
     * first and the data second, each after its own TXIS; then TXE.
     */
    method Write(slave: bv8, addr: bv8, data: bv8)
      requires Quiescent()
      modifies this
      ensures Quiescent() && stopf
      ensures cr2 == TransferWord(slave, 2, false, true)
      ensures trace == old(trace) + WriteFrame(slave & 0x7F, addr, data)
      ensures waits == old(waits) + WriteWaits(|old(trace)|)
      ensures incoming == old(incoming)
    {
      ghost var t0, a := trace, slave & 0x7F;
      Await(BusFree);
      SetCr2(0);
      var w := AUTOEND | (2 << 16) | ((slave as bv32) << 1) | START;
      WriteWordIsTransferWord(slave);
      SmallValues();
      SetCr2(w);
      assert phase == Moving(Wr, 2, true) && trace == t0 + [Start(a, Wr, 2, true)];
      Await(TXIS);
      WriteTxdr(addr);
      assert phase == Moving(Wr, 1, true) && trace == t0 + [Start(a, Wr, 2, true), Tx(addr)];
      Await(TXIS);
      WriteTxdr(data);
      Await(TXE);
      assert trace == t0 + WriteFrame(a, addr, data);
    }

    /**
     * The receive loop of I2C1_Read, once the read transfer of `n` bytes has
     * started: for i from 0 to n - 1, the RXNE spin and then data[i] := RXDR.
     * The counter is a uint8_t and `n` a byte count, so `i + 1` never wraps.
     */
    method ReceiveInto(data: array<bv8>, n: nat)
      requires n < 0x100
      requires n <= data.Length && n <= |incoming|
      requires phase == Moving(Rd, n, true)
      modifies this`trace, this`phase, this`stopf, this`incoming, this`waits, data
      ensures phase == Moving(Rd, 0, true) && stopf == old(stopf)
      ensures data[..n] == old(incoming[..n]) && data[n..] == old(data[n..])
      ensures incoming == old(incoming[n..])
      ensures trace == old(trace) + RxEvents(old(incoming[..n]))
      ensures waits == old(waits) + RxWaits(|old(trace)|, n)
    {
      ghost var t0, w0, in0, d0 := trace, waits, incoming, data[..];
      ghost var got: seq<bv8> := [];
      var i: nat := 0;
      while i < n
        invariant i <= n && |got| == i && in0 == got + incoming
        invariant i < 0x100
        invariant phase == Moving(Rd, n - i, true) && stopf == old(stopf)
        invariant trace == t0 + RxEvents(got)
        invariant data[..] == got + d0[i..]
        invariant waits == w0 + RxWaits(|t0|, i)
      {
        Await(RXNE);
        Assoc(w0, RxWaits(|t0|, i), [Wait(RXNE, |t0| + i)]);
        ghost var rest, before := incoming, data[..];
        var b := ReadRxdr();
        data[i] := b;
        assert data[..] == before[i := b];
        PutNext(got, b, d0);
        assert rest == [b] + incoming;
        Assoc(got, [b], incoming);
        RxEventsAppend(got, b);
        Assoc(t0, RxEvents(got), [Rx(b)]);
        got := got + [b];
        i := i + 1;
      }
      assert got == in0[..n];
      assert data[..n] == got;
      assert data[n..] == d0[n..];
    }

    /**
     * The address phase of I2C1_Read: once the bus is free, CR2 is cleared and
     * set for a one-byte write without automatic end; the register address goes
     * out after TXIS; then TC, with the bus held for the repeated START.
     */
    method SendRegister(slave: bv8, addr: bv8)
      requires Quiescent()
      modifies this
      ensures Held(phase) && stopf == old(stopf)
      ensures cr2 == TransferWord(slave, 1, false, false)
      ensures trace == old(trace) + ReadHead(slave & 0x7F, addr, 0)[..2]
      ensures waits == old(waits) + ReadWaits(|old(trace)|, 0)[..3]
      ensures incoming == old(incoming)
    {
      ghost var t0, w0, a := trace, waits, slave & 0x7F;
      ghost var n0 := |t0|;
      Await(BusFree);
      SetCr2(0);
      var w := (1 << 16) | ((slave as bv32) << 1) | START;
      AddressWordIsTransferWord(slave);
      SmallValues();
      SetCr2(w);
      assert phase == Moving(Wr, 1, false) && trace == t0 + [Start(a, Wr, 1, false)];
      Await(TXIS);
      WriteTxdr(addr);
      assert phase == Moving(Wr, 0, false) && trace == t0 + [Start(a, Wr, 1, false), Tx(addr)];
      Await(TC);
      assert waits == w0 + [Wait(BusFree, n0), Wait(TXIS, n0 + 1), Wait(TC, n0 + 2)];
    }

    /**
     * I2C1_Read: reads `size` bytes starting at register `addr` of the slave at
     * 7-bit address `slave` into data[0..size). After the address phase
     * (SendRegister), CR2 is cleared and set for a read of `size` bytes with
     * automatic end (the repeated START); each byte is stored in order after its
     * RXNE (ReceiveInto); then STOPF.
     */
    method Read(slave: bv8, addr: bv8, data: array<bv8>, size: bv8)
      requires Quiescent()
      requires Value(size) <= data.Length
      requires Value(size) <= |incoming|
      modifies this, data
      ensures Quiescent() && stopf
      ensures cr2 == TransferWord(slave, size, true, true)
      ensures data[..Value(size)] == old(incoming[..Value(size)])
      ensures data[Value(size)..] == old(data[Value(size)..])
      ensures incoming == old(incoming[Value(size)..])
      ensures trace == old(trace) + CombinedRead(slave & 0x7F, addr, old(incoming[..Value(size)]))
      ensures waits == old(waits) + ReadWaits(|old(trace)|, Value(size))
    {
      ghost var t0, w0, a := trace, waits, slave & 0x7F;
      ghost var n0 := |t0|;
      SendRegister(slave, addr);
      SetCr2(0);
      var w := AUTOEND | RD_WRN | ((size as bv32) << 16) | ((slave as bv32) << 1) | START;
      ReadWordIsTransferWord(slave, size);
      var n := Value(size);
      ghost var got := incoming[..n];
      ValueBound(size);
      SetCr2(w);
      ghost var h, w1 := ReadHead(a, addr, n), waits;
      assert trace == t0 + h;
      ReceiveInto(data, n);
      Await(STOPF);
      Assoc(t0, h, RxEvents(got));
      Assoc(t0, h + RxEvents(got), [Stop]);
      ghost var head := [Wait(BusFree, n0), Wait(TXIS, n0 + 1), Wait(TC, n0 + 2)];
      Assoc(w0, head, RxWaits(n0 + 3, n));
      Assoc(w0, head + RxWaits(n0 + 3, n), [Wait(STOPF, n0 + n + 4)]);
    }
  }
}
