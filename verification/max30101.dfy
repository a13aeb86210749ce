/**
 * The MAX30101 configuration profiles (Project/MAX30101.c): each is a fixed,
 * ordered sequence of single-register writes issued through I2C1_Write.
 *
 * The sensor's side is a register file (a map from register address to
 * value). A profile as data is a sequence of RegWrite; Apply runs it over a
 * register file, one write after the other, and LastWrite is the reference
 * that says, register by register, what a profile leaves behind. Receive is
 * the sensor listening on the bus: every two-byte write transfer addressed to
 * it stores the second byte in the register the first byte names.
 */
module Max30101 {
  import opened Bytes
  import opened BusEvents
  import opened Cr2
  import opened I2c
  import opened Max30101Regs

  datatype Option<T> = None | Some(value: T)

  /** One register write: `val` into register `reg`. */
  datatype RegWrite = RegWrite(reg: bv8, val: bv8)

  /**
   * A register of the sensor, named by its address. (Register files are keyed
   * by Reg rather than by the bare bv8 address: the verifier relates map updates
   * and lookups for datatype keys, not for bit-vector keys.)
   */
  datatype Reg = Reg(addr: bv8)

  /** The sensor's registers that hold a value, and their values. */
  type RegisterFile = map<Reg, bv8>

  /** The 7-bit bus address of the MAX30101 (0xAE is that address shifted left for the write direction). */
  const DEVICE_ADDR: bv8 := 0x57

  /** The sensor's address as the driver should pass it to I2C1_Write and I2C1_Read: not shifted. */
  const SENSOR_ADDR_7BIT: bv8 := SENSOR_ADDR >> 1

  // The three profiles, in the order their writes are issued.

  /** MAX30101_Init: SpO2 mode with two LEDs at full power. */
  function InitProfile(): (p: seq<RegWrite>)
    ensures |p| == 7
  {
    [RegWrite(FIFO_CONFIG, 0x10), RegWrite(MODE_CONFIG, 0x03), RegWrite(SPO2_CONFIG, 0x2F),
     RegWrite(FIFO_READPTR, 0x00), RegWrite(FIFO_WRITPTR, 0x00),
     RegWrite(LED1_PAMPLI, 0x3F), RegWrite(LED2_PAMPLI, 0x3F)]
  }

  /** MAX30101_InitSPO2Lite: SpO2 mode with two LEDs at low power, temperature sensor on. */
  function Spo2LiteProfile(): (p: seq<RegWrite>)
    ensures |p| == 8
  {
    [RegWrite(FIFO_CONFIG, 0x4F), RegWrite(MODE_CONFIG, 0x03), RegWrite(SPO2_CONFIG, 0x23),
     RegWrite(FIFO_READPTR, 0x00), RegWrite(FIFO_WRITPTR, 0x00),
     RegWrite(LED1_PAMPLI, 0x18), RegWrite(LED2_PAMPLI, 0x18), RegWrite(DIE_TEMPCFG, 0x01)]
  }

  /** MAX30101_InitMuscleOx: multi-LED mode with three LEDs at `ledPower`, temperature sensor on. */
  function MuscleOxProfile(ledPower: bv8): (p: seq<RegWrite>)
    ensures |p| == 9
  {
    [RegWrite(FIFO_CONFIG, 0x4F), RegWrite(MODE_CONFIG, 0x07), RegWrite(SPO2_CONFIG, 0x26),
     RegWrite(FIFO_READPTR, 0x00), RegWrite(FIFO_WRITPTR, 0x00),
     RegWrite(LED1_PAMPLI, ledPower), RegWrite(LED2_PAMPLI, ledPower), RegWrite(LED3_PAMPLI, ledPower),
     RegWrite(DIE_TEMPCFG, 0x01)]
  }

  /** No two writes of `p` go to the same register. */
  predicate DistinctRegisters(p: seq<RegWrite>) {
    forall i, j :: 0 <= i < j < |p| ==> p[i].reg != p[j].reg
  }

  function Targets(p: seq<RegWrite>): set<bv8> {
    set w | w in p :: w.reg
  }

  // The register file after a profile.

  /** The writes of `p` applied to `regs`, first to last. */
  function Apply(regs: RegisterFile, p: seq<RegWrite>): RegisterFile
    decreases |p|
  {
    if p == [] then regs else Apply(regs[Reg(p[0].reg) := p[0].val], p[1..])
  }

  /** The value the last write of `p` to register `k` stores, if `p` writes `k` at all. */
  function LastWrite(p: seq<RegWrite>, k: bv8): Option<bv8>
    decreases |p|
  {
    if p == [] then None
    else match LastWrite(p[1..], k)
      case Some(v) => Some(v)
      case None => if p[0].reg == k then Some(p[0].val) else None
  }

  /**
   * Apply against its reference, register by register: a register `p` writes
   * ends with the value of its last write; any other keeps its value (or stays
   * absent).
   */
  lemma {:induction false} ApplyPointwise(regs: RegisterFile, p: seq<RegWrite>, k: bv8)
    ensures Reg(k) in Apply(regs, p) <==> Reg(k) in regs || LastWrite(p, k).Some?
    ensures Reg(k) in Apply(regs, p) ==>
      Apply(regs, p)[Reg(k)] == if LastWrite(p, k).Some? then LastWrite(p, k).value else regs[Reg(k)]
    decreases |p|
  {
    if p != [] {
      ApplyPointwise(regs[Reg(p[0].reg) := p[0].val], p[1..], k);
    }
  }

  /** A register that `p` never names is not written by `p`. */
  lemma {:induction false} LastWriteOfTarget(p: seq<RegWrite>, k: bv8)
    ensures LastWrite(p, k).Some? <==> k in Targets(p)
    decreases |p|
  {
    if p != [] {
      LastWriteOfTarget(p[1..], k);
      assert Targets(p) == {p[0].reg} + Targets(p[1..]) by {
        assert forall w :: w in p <==> w == p[0] || w in p[1..] by {
          assert p == [p[0]] + p[1..];
        }
      }
    }
  }

  /** Frame: the registers a profile does not name keep their values. */
  lemma ApplyFrame(regs: RegisterFile, p: seq<RegWrite>, k: bv8)
    requires k !in Targets(p)
    ensures Reg(k) in Apply(regs, p) <==> Reg(k) in regs
    ensures Reg(k) in regs ==> Apply(regs, p)[Reg(k)] == regs[Reg(k)]
  {
    ApplyPointwise(regs, p, k);
    LastWriteOfTarget(p, k);
  }

  /** In a profile that never writes a register twice, every write is the register's final value. */
  lemma {:induction false} DistinctWriteFinal(regs: RegisterFile, p: seq<RegWrite>, i: nat)
    requires DistinctRegisters(p) && i < |p|
    ensures Reg(p[i].reg) in Apply(regs, p) && Apply(regs, p)[Reg(p[i].reg)] == p[i].val
  {
    LastWriteOfWrite(p, i);
    ApplyPointwise(regs, p, p[i].reg);
  }

  lemma {:induction false} LastWriteOfWrite(p: seq<RegWrite>, i: nat)
    requires DistinctRegisters(p) && i < |p|
    ensures LastWrite(p, p[i].reg) == Some(p[i].val)
    decreases |p|
  {
    var k := p[i].reg;
    if i == 0 {
      assert forall j :: 0 <= j < |p| - 1 ==> p[1..][j].reg != k;
      assert k !in Targets(p[1..]);
      LastWriteOfTarget(p[1..], k);
    } else {
      assert DistinctRegisters(p[1..]);
      assert p[1..][i - 1] == p[i];
      LastWriteOfWrite(p[1..], i - 1);
    }
  }

  /** Applying a profile a second time changes nothing. */
  lemma ApplyIdempotent(regs: RegisterFile, p: seq<RegWrite>)
    ensures Apply(Apply(regs, p), p) == Apply(regs, p)
  {
    var once := Apply(regs, p);
    forall r: Reg
      ensures r in Apply(once, p) <==> r in once
      ensures r in once ==> Apply(once, p)[r] == once[r]
    {
      ApplyPointwise(regs, p, r.addr);
      ApplyPointwise(once, p, r.addr);
    }
  }

  // None of the three profiles writes a register twice.

  lemma InitDistinct()
    ensures DistinctRegisters(InitProfile())
  {
  }

  lemma Spo2LiteDistinct()
    ensures DistinctRegisters(Spo2LiteProfile())
  {
  }

  lemma MuscleOxDistinct(ledPower: bv8)
    ensures DistinctRegisters(MuscleOxProfile(ledPower))
  {
  }

  /** After MAX30101_Init the registers it writes hold its values; both FIFO pointers are 0. */
  lemma InitValues(regs: RegisterFile)
    ensures var r := Apply(regs, InitProfile());
      Reg(FIFO_CONFIG) in r && r[Reg(FIFO_CONFIG)] == 0x10
      && Reg(MODE_CONFIG) in r && r[Reg(MODE_CONFIG)] == 0x03
      && Reg(SPO2_CONFIG) in r && r[Reg(SPO2_CONFIG)] == 0x2F
      && Reg(FIFO_READPTR) in r && r[Reg(FIFO_READPTR)] == 0x00
      && Reg(FIFO_WRITPTR) in r && r[Reg(FIFO_WRITPTR)] == 0x00
      && Reg(LED1_PAMPLI) in r && r[Reg(LED1_PAMPLI)] == 0x3F
      && Reg(LED2_PAMPLI) in r && r[Reg(LED2_PAMPLI)] == 0x3F
  {
    var p := InitProfile();
    InitDistinct();
    DistinctWriteFinal(regs, p, 0);
    DistinctWriteFinal(regs, p, 1);
    DistinctWriteFinal(regs, p, 2);
    DistinctWriteFinal(regs, p, 3);
    DistinctWriteFinal(regs, p, 4);
    DistinctWriteFinal(regs, p, 5);
    DistinctWriteFinal(regs, p, 6);
  }

  /** MAX30101_Init leaves every register it does not write as it was: LED3 and DIE_TEMPCFG among them. */
  lemma InitFrame(regs: RegisterFile)
    ensures forall k :: k !in Targets(InitProfile()) ==> Unchanged(regs, Apply(regs, InitProfile()), k)
    ensures LED3_PAMPLI !in Targets(InitProfile()) && DIE_TEMPCFG !in Targets(InitProfile())
  {
    forall k | k !in Targets(InitProfile())
      ensures Unchanged(regs, Apply(regs, InitProfile()), k)
    {
      ApplyFrame(regs, InitProfile(), k);
    }
  }

  /** After MAX30101_InitSPO2Lite the registers it writes hold its values; both FIFO pointers are 0. */
  lemma Spo2LiteValues(regs: RegisterFile)
    ensures var r := Apply(regs, Spo2LiteProfile());
      Reg(FIFO_CONFIG) in r && r[Reg(FIFO_CONFIG)] == 0x4F
      && Reg(MODE_CONFIG) in r && r[Reg(MODE_CONFIG)] == 0x03
      && Reg(SPO2_CONFIG) in r && r[Reg(SPO2_CONFIG)] == 0x23
      && Reg(FIFO_READPTR) in r && r[Reg(FIFO_READPTR)] == 0x00
      && Reg(FIFO_WRITPTR) in r && r[Reg(FIFO_WRITPTR)] == 0x00
      && Reg(LED1_PAMPLI) in r && r[Reg(LED1_PAMPLI)] == 0x18
      && Reg(LED2_PAMPLI) in r && r[Reg(LED2_PAMPLI)] == 0x18
      && Reg(DIE_TEMPCFG) in r && r[Reg(DIE_TEMPCFG)] == 0x01
  {
    var p := Spo2LiteProfile();
    Spo2LiteDistinct();
    DistinctWriteFinal(regs, p, 0);
    DistinctWriteFinal(regs, p, 1);
    DistinctWriteFinal(regs, p, 2);
    DistinctWriteFinal(regs, p, 3);
    DistinctWriteFinal(regs, p, 4);
    DistinctWriteFinal(regs, p, 5);
    DistinctWriteFinal(regs, p, 6);
    DistinctWriteFinal(regs, p, 7);
  }

  /** MAX30101_InitSPO2Lite leaves every register it does not write as it was: LED3 among them. */
  lemma Spo2LiteFrame(regs: RegisterFile)
    ensures forall k :: k !in Targets(Spo2LiteProfile()) ==> Unchanged(regs, Apply(regs, Spo2LiteProfile()), k)
    ensures LED3_PAMPLI !in Targets(Spo2LiteProfile())
  {
    forall k | k !in Targets(Spo2LiteProfile())
      ensures Unchanged(regs, Apply(regs, Spo2LiteProfile()), k)
    {
      ApplyFrame(regs, Spo2LiteProfile(), k);
    }
  }

  /**
   * After MAX30101_InitMuscleOx the registers it writes hold its values: all
   * three LEDs at `ledPower`, whatever it is (the driver does not check it);
   * both FIFO pointers are 0.
   */
  lemma MuscleOxValues(regs: RegisterFile, ledPower: bv8)
    ensures var r := Apply(regs, MuscleOxProfile(ledPower));
      Reg(FIFO_CONFIG) in r && r[Reg(FIFO_CONFIG)] == 0x4F
      && Reg(MODE_CONFIG) in r && r[Reg(MODE_CONFIG)] == 0x07
      && Reg(SPO2_CONFIG) in r && r[Reg(SPO2_CONFIG)] == 0x26
      && Reg(FIFO_READPTR) in r && r[Reg(FIFO_READPTR)] == 0x00
      && Reg(FIFO_WRITPTR) in r && r[Reg(FIFO_WRITPTR)] == 0x00
      && Reg(LED1_PAMPLI) in r && r[Reg(LED1_PAMPLI)] == ledPower
      && Reg(LED2_PAMPLI) in r && r[Reg(LED2_PAMPLI)] == ledPower
      && Reg(LED3_PAMPLI) in r && r[Reg(LED3_PAMPLI)] == ledPower
      && Reg(DIE_TEMPCFG) in r && r[Reg(DIE_TEMPCFG)] == 0x01
  {
    var p := MuscleOxProfile(ledPower);
    MuscleOxDistinct(ledPower);
    DistinctWriteFinal(regs, p, 0);
    DistinctWriteFinal(regs, p, 1);
    DistinctWriteFinal(regs, p, 2);
    DistinctWriteFinal(regs, p, 3);
    DistinctWriteFinal(regs, p, 4);
    DistinctWriteFinal(regs, p, 5);
    DistinctWriteFinal(regs, p, 6);
    DistinctWriteFinal(regs, p, 7);
    DistinctWriteFinal(regs, p, 8);
  }

  /** MAX30101_InitMuscleOx leaves every register it does not write as it was: LED4 among them. */
  lemma MuscleOxFrame(regs: RegisterFile, ledPower: bv8)
    ensures forall k :: k !in Targets(MuscleOxProfile(ledPower)) ==>
      Unchanged(regs, Apply(regs, MuscleOxProfile(ledPower)), k)
    ensures LED4_PAMPLI !in Targets(MuscleOxProfile(ledPower))
  {
    forall k | k !in Targets(MuscleOxProfile(ledPower))
      ensures Unchanged(regs, Apply(regs, MuscleOxProfile(ledPower)), k)
    {
      ApplyFrame(regs, MuscleOxProfile(ledPower), k);
    }
  }

  /** Both FIFO pointers of `r` are 0: the FIFO is empty. */
  predicate FifoEmpty(r: RegisterFile) {
    Reg(FIFO_READPTR) in r && r[Reg(FIFO_READPTR)] == 0 && Reg(FIFO_WRITPTR) in r && r[Reg(FIFO_WRITPTR)] == 0
  }

  /** Every profile resets both FIFO pointers to 0. */
  lemma FifoPointersReset(regs: RegisterFile, ledPower: bv8)
    ensures FifoEmpty(Apply(regs, InitProfile()))
    ensures FifoEmpty(Apply(regs, Spo2LiteProfile()))
    ensures FifoEmpty(Apply(regs, MuscleOxProfile(ledPower)))
  {
    InitValues(regs);
    Spo2LiteValues(regs);
    MuscleOxValues(regs, ledPower);
  }

  /** Register `k` is in `after` exactly when it was in `before`, with the same value. */
  predicate Unchanged(before: RegisterFile, after: RegisterFile, k: bv8) {
    (Reg(k) in after <==> Reg(k) in before) && (Reg(k) in before ==> after[Reg(k)] == before[Reg(k)])
  }

  // The profiles on the bus.

  /** What I2C1_Write puts on the bus for each write of `p`, in order, sent to 7-bit address `a`. */
  function WriteFrames(a: bv8, p: seq<RegWrite>): seq<Event>
    decreases |p|
  {
    if p == [] then [] else WriteFrame(a, p[0].reg, p[0].val) + WriteFrames(a, p[1..])
  }

  /** A profile on the bus is made of complete transfers, each addressed to `a` in the write direction. */
  lemma {:induction false} WriteFramesComplete(a: bv8, p: seq<RegWrite>)
    ensures Complete(WriteFrames(a, p))
    ensures forall e :: e in WriteFrames(a, p) && e.Start? ==> e.addr == a && e.dir == Wr
    decreases |p|
  {
    if p == [] {
      assert RunFrom(Idle, []) == Idle;
    } else {
      WriteFramesComplete(a, p[1..]);
      WriteFrameComplete(a, p[0].reg, p[0].val);
      CompleteAppend(WriteFrame(a, p[0].reg, p[0].val), WriteFrames(a, p[1..]));
    }
  }

  /**
   * The sensor at 7-bit address `self` listening to the bus: a two-byte write
   * transfer addressed to it stores the second byte in the register the first
   * byte names; every other event leaves its registers alone.
   */
  function Receive(regs: RegisterFile, self: bv8, wire: seq<Event>): RegisterFile
    decreases |wire|
  {
    if |wire| >= 4 && wire[0] == Start(self, Wr, 2, true) && wire[1].Tx? && wire[2].Tx? && wire[3] == Stop then
      Receive(regs[Reg(wire[1].b) := wire[2].b], self, wire[4..])
    else if wire == [] then regs
    else Receive(regs, self, wire[1..])
  }

  /** A profile sent to the sensor's own address does to its registers what Apply says. */
  lemma {:induction false} ReceiveOwnFrames(regs: RegisterFile, a: bv8, p: seq<RegWrite>)
    ensures Receive(regs, a, WriteFrames(a, p)) == Apply(regs, p)
    decreases |p|
  {
    if p != [] {
      var frame, rest := WriteFrame(a, p[0].reg, p[0].val), WriteFrames(a, p[1..]);
      var wire := frame + rest;
      assert wire[..4] == frame && wire[4..] == rest;
      ReceiveOwnFrames(regs[Reg(p[0].reg) := p[0].val], a, p[1..]);
    }
  }

  /** A profile sent to any other address leaves the sensor's registers as they were. */
  lemma {:induction false} ReceiveForeignFrames(regs: RegisterFile, self: bv8, a: bv8, p: seq<RegWrite>)
    requires a != self
    ensures Receive(regs, self, WriteFrames(a, p)) == regs
    decreases |p|
  {
    if p != [] {
      var frame, rest := WriteFrame(a, p[0].reg, p[0].val), WriteFrames(a, p[1..]);
      var wire := frame + rest;
      var w1, w2, w3 := [frame[1], frame[2], frame[3]] + rest, [frame[2], frame[3]] + rest, [frame[3]] + rest;
      assert wire[1..] == w1 && w1[1..] == w2 && w2[1..] == w3 && w3[1..] == rest;
      assert Receive(regs, self, wire) == Receive(regs, self, w1);
      assert Receive(regs, self, w1) == Receive(regs, self, w2);
      assert Receive(regs, self, w2) == Receive(regs, self, w3);
      assert Receive(regs, self, w3) == Receive(regs, self, rest);
      ReceiveForeignFrames(regs, self, a, p[1..]);
    }
  }

  /** Sending a non-empty profile after `t`: its first write's transfer, then the rest. */
  lemma FramesStep(t: seq<Event>, a: bv8, p: seq<RegWrite>)
    requires p != []
    ensures t + WriteFrames(a, p) == t + WriteFrame(a, p[0].reg, p[0].val) + WriteFrames(a, p[1..])
  {
    Assoc(t, WriteFrame(a, p[0].reg, p[0].val), WriteFrames(a, p[1..]));
  }

  /** The first `k` writes of `p` on the bus after `t`, one transfer after the other. */
  function Sent(t: seq<Event>, a: bv8, p: seq<RegWrite>, k: nat): (s: seq<Event>)
    requires k <= |p|
    ensures |s| == |t| + 4 * k
  {
    if k == 0 then t else Sent(t, a, p, k - 1) + WriteFrame(a, p[k - 1].reg, p[k - 1].val)
  }

  /** Sending all of `p` one transfer after the other is sending WriteFrames(a, p). */
  lemma {:induction false} SentAll(t: seq<Event>, a: bv8, p: seq<RegWrite>, k: nat)
    requires k <= |p|
    ensures Sent(t, a, p, k) + WriteFrames(a, p[k..]) == t + WriteFrames(a, p)
    decreases k
  {
    if k == 0 {
      assert p[0..] == p;
    } else {
      SentAll(t, a, p, k - 1);
      FramesStep(Sent(t, a, p, k - 1), a, p[k - 1..]);
      assert p[k - 1..][1..] == p[k..];
    }
  }

  /** The spins of `k` register writes in a row, the first starting after `n0` bus events. */
  function ProfileWaits(n0: nat, k: nat): (ws: seq<Wait>)
    ensures |ws| == 4 * k
  {
    if k == 0 then [] else ProfileWaits(n0, k - 1) + WriteWaits(n0 + 4 * (k - 1))
  }

  /** The spins of the first `k` writes after `w`, one write after the other. */
  function Waited(w: seq<Wait>, n0: nat, k: nat): seq<Wait> {
    if k == 0 then w else Waited(w, n0, k - 1) + WriteWaits(n0 + 4 * (k - 1))
  }

  /** Spinning for the first `k` writes after `w` is spinning ProfileWaits after `w`. */
  lemma {:induction false} WaitedAll(w: seq<Wait>, n0: nat, k: nat)
    ensures Waited(w, n0, k) == w + ProfileWaits(n0, k)
  {
    if k > 0 {
      WaitedAll(w, n0, k - 1);
      Assoc(w, ProfileWaits(n0, k - 1), WriteWaits(n0 + 4 * (k - 1)));
    }
  }

  /** All of `p`, one transfer after the other, with the spins of each write. */
  lemma SentWhole(t0: seq<Event>, w0: seq<Wait>, a: bv8, p: seq<RegWrite>, n: nat)
    requires n == |p|
    ensures Sent(t0, a, p, n) == t0 + WriteFrames(a, p)
    ensures Waited(w0, |t0|, n) == w0 + ProfileWaits(|t0|, n)
  {
    SentAll(t0, a, p, n);
    assert p[n..] == [];
    WaitedAll(w0, |t0|, n);
  }

  /** One more register write after the first `k`: one more transfer on the bus, four more spins. */
  lemma Advance(t0: seq<Event>, w0: seq<Wait>, a: bv8, p: seq<RegWrite>, k: nat, t: seq<Event>, w: seq<Wait>,
                reg: bv8, val: bv8)
    requires k < |p| && p[k] == RegWrite(reg, val)
    requires t == Sent(t0, a, p, k) && w == Waited(w0, |t0|, k)
    ensures t + WriteFrame(a, reg, val) == Sent(t0, a, p, k + 1)
    ensures w + WriteWaits(|t|) == Waited(w0, |t0|, k + 1)
  {
  }

  // The profiles as the driver runs them: register writes through I2C1_Write, in order.

  /** MAX30101_Init, with every write sent to the slave at `slave`. */
  method InitAt(bus: I2C1, slave: bv8)
    requires bus.Quiescent()
    modifies bus
    ensures bus.Quiescent() && bus.stopf && bus.incoming == old(bus.incoming)
    ensures bus.cr2 == TransferWord(slave, 2, false, true)
    ensures bus.trace == old(bus.trace) + WriteFrames(slave & 0x7F, InitProfile())
    ensures bus.waits == old(bus.waits) + ProfileWaits(|old(bus.trace)|, 7)
  {
    ghost var t0, w0, a, p := bus.trace, bus.waits, slave & 0x7F, InitProfile();
    assert Waited(w0, |t0|, 0) == w0;
    Advance(t0, w0, a, p, 0, bus.trace, bus.waits, FIFO_CONFIG, 0x10);
    bus.Write(slave, FIFO_CONFIG, 0x10);
    Advance(t0, w0, a, p, 1, bus.trace, bus.waits, MODE_CONFIG, 0x03);
    bus.Write(slave, MODE_CONFIG, 0x03);
    Advance(t0, w0, a, p, 2, bus.trace, bus.waits, SPO2_CONFIG, 0x2F);
    bus.Write(slave, SPO2_CONFIG, 0x2F);
    Advance(t0, w0, a, p, 3, bus.trace, bus.waits, FIFO_READPTR, 0x00);
    bus.Write(slave, FIFO_READPTR, 0x00);
    Advance(t0, w0, a, p, 4, bus.trace, bus.waits, FIFO_WRITPTR, 0x00);
    bus.Write(slave, FIFO_WRITPTR, 0x00);
    Advance(t0, w0, a, p, 5, bus.trace, bus.waits, LED1_PAMPLI, 0x3F);
    bus.Write(slave, LED1_PAMPLI, 0x3F);
    Advance(t0, w0, a, p, 6, bus.trace, bus.waits, LED2_PAMPLI, 0x3F);
    bus.Write(slave, LED2_PAMPLI, 0x3F);
    SentWhole(t0, w0, a, p, 7);
  }

  /** MAX30101_InitSPO2Lite, with every write sent to the slave at `slave`. */
  method InitSpo2LiteAt(bus: I2C1, slave: bv8)
    requires bus.Quiescent()
    modifies bus
    ensures bus.Quiescent() && bus.stopf && bus.incoming == old(bus.incoming)
    ensures bus.cr2 == TransferWord(slave, 2, false, true)
    ensures bus.trace == old(bus.trace) + WriteFrames(slave & 0x7F, Spo2LiteProfile())
    ensures bus.waits == old(bus.waits) + ProfileWaits(|old(bus.trace)|, 8)
  {
    ghost var t0, w0, a, p := bus.trace, bus.waits, slave & 0x7F, Spo2LiteProfile();
    assert Waited(w0, |t0|, 0) == w0;
    Advance(t0, w0, a, p, 0, bus.trace, bus.waits, FIFO_CONFIG, 0x4F);
    bus.Write(slave, FIFO_CONFIG, 0x4F);
    Advance(t0, w0, a, p, 1, bus.trace, bus.waits, MODE_CONFIG, 0x03);
    bus.Write(slave, MODE_CONFIG, 0x03);
    Advance(t0, w0, a, p, 2, bus.trace, bus.waits, SPO2_CONFIG, 0x23);
    bus.Write(slave, SPO2_CONFIG, 0x23);
    Advance(t0, w0, a, p, 3, bus.trace, bus.waits, FIFO_READPTR, 0x00);
    bus.Write(slave, FIFO_READPTR, 0x00);
    Advance(t0, w0, a, p, 4, bus.trace, bus.waits, FIFO_WRITPTR, 0x00);
    bus.Write(slave, FIFO_WRITPTR, 0x00);
    Advance(t0, w0, a, p, 5, bus.trace, bus.waits, LED1_PAMPLI, 0x18);
    bus.Write(slave, LED1_PAMPLI, 0x18);
    Advance(t0, w0, a, p, 6, bus.trace, bus.waits, LED2_PAMPLI, 0x18);
    bus.Write(slave, LED2_PAMPLI, 0x18);
    Advance(t0, w0, a, p, 7, bus.trace, bus.waits, DIE_TEMPCFG, 0x01);
    bus.Write(slave, DIE_TEMPCFG, 0x01);
    SentWhole(t0, w0, a, p, 8);
  }

  /** MAX30101_InitMuscleOx(ledPower), with every write sent to the slave at `slave`. */
  method InitMuscleOxAt(bus: I2C1, slave: bv8, ledPower: bv8)
    requires bus.Quiescent()
    modifies bus
    ensures bus.Quiescent() && bus.stopf && bus.incoming == old(bus.incoming)
    ensures bus.cr2 == TransferWord(slave, 2, false, true)
    ensures bus.trace == old(bus.trace) + WriteFrames(slave & 0x7F, MuscleOxProfile(ledPower))
    ensures bus.waits == old(bus.waits) + ProfileWaits(|old(bus.trace)|, 9)
  {
    ghost var t0, w0, a, p := bus.trace, bus.waits, slave & 0x7F, MuscleOxProfile(ledPower);
    assert Waited(w0, |t0|, 0) == w0;
    Advance(t0, w0, a, p, 0, bus.trace, bus.waits, FIFO_CONFIG, 0x4F);
    bus.Write(slave, FIFO_CONFIG, 0x4F);
    Advance(t0, w0, a, p, 1, bus.trace, bus.waits, MODE_CONFIG, 0x07);
    bus.Write(slave, MODE_CONFIG, 0x07);
    Advance(t0, w0, a, p, 2, bus.trace, bus.waits, SPO2_CONFIG, 0x26);
    bus.Write(slave, SPO2_CONFIG, 0x26);
    Advance(t0, w0, a, p, 3, bus.trace, bus.waits, FIFO_READPTR, 0x00);
    bus.Write(slave, FIFO_READPTR, 0x00);
    Advance(t0, w0, a, p, 4, bus.trace, bus.waits, FIFO_WRITPTR, 0x00);
    bus.Write(slave, FIFO_WRITPTR, 0x00);
    Advance(t0, w0, a, p, 5, bus.trace, bus.waits, LED1_PAMPLI, ledPower);
    bus.Write(slave, LED1_PAMPLI, ledPower);
    Advance(t0, w0, a, p, 6, bus.trace, bus.waits, LED2_PAMPLI, ledPower);
    bus.Write(slave, LED2_PAMPLI, ledPower);
    Advance(t0, w0, a, p, 7, bus.trace, bus.waits, LED3_PAMPLI, ledPower);
    bus.Write(slave, LED3_PAMPLI, ledPower);
    Advance(t0, w0, a, p, 8, bus.trace, bus.waits, DIE_TEMPCFG, 0x01);
    bus.Write(slave, DIE_TEMPCFG, 0x01);
    SentWhole(t0, w0, a, p, 9);
  }

  /**
   * MAX30101_Init as written: every write goes to SENSOR_ADDR, which the bus carries as
   * SENSOR_ADDR & 0x7F; the sensor's registers are left as they were.
   */
  method Init(bus: I2C1)
    requires bus.Quiescent()
    modifies bus
    ensures bus.Quiescent() && bus.stopf && bus.incoming == old(bus.incoming)
    ensures bus.cr2 == TransferWord(SENSOR_ADDR, 2, false, true)
    ensures bus.trace == old(bus.trace) + WriteFrames(SENSOR_ADDR & 0x7F, InitProfile())
    ensures bus.waits == old(bus.waits) + ProfileWaits(|old(bus.trace)|, 7)
    ensures forall regs :: Receive(regs, DEVICE_ADDR, bus.trace[|old(bus.trace)|..]) == regs
  {
    InitAt(bus, SENSOR_ADDR);
    ghost var sent := bus.trace[|old(bus.trace)|..];
    assert sent == WriteFrames(SENSOR_ADDR & 0x7F, InitProfile());
    forall regs: RegisterFile
      ensures Receive(regs, DEVICE_ADDR, sent) == regs
    {
      SensorAddrAsWritten(regs, InitProfile());
    }
  }

  /**
   * MAX30101_InitSPO2Lite as written: every write goes to SENSOR_ADDR, which the bus carries as
   * SENSOR_ADDR & 0x7F; the sensor's registers are left as they were.
   */
  method InitSpo2Lite(bus: I2C1)
    requires bus.Quiescent()
    modifies bus
    ensures bus.Quiescent() && bus.stopf && bus.incoming == old(bus.incoming)
    ensures bus.cr2 == TransferWord(SENSOR_ADDR, 2, false, true)
    ensures bus.trace == old(bus.trace) + WriteFrames(SENSOR_ADDR & 0x7F, Spo2LiteProfile())
    ensures bus.waits == old(bus.waits) + ProfileWaits(|old(bus.trace)|, 8)
    ensures forall regs :: Receive(regs, DEVICE_ADDR, bus.trace[|old(bus.trace)|..]) == regs
  {
    InitSpo2LiteAt(bus, SENSOR_ADDR);
    ghost var sent := bus.trace[|old(bus.trace)|..];
    assert sent == WriteFrames(SENSOR_ADDR & 0x7F, Spo2LiteProfile());
    forall regs: RegisterFile
      ensures Receive(regs, DEVICE_ADDR, sent) == regs
    {
      SensorAddrAsWritten(regs, Spo2LiteProfile());
    }
  }

  /**
   * MAX30101_InitMuscleOx(ledPower) as written: every write goes to SENSOR_ADDR, which the bus carries as
   * SENSOR_ADDR & 0x7F; the sensor's registers are left as they were.
   */
  method InitMuscleOx(bus: I2C1, ledPower: bv8)
    requires bus.Quiescent()
    modifies bus
    ensures bus.Quiescent() && bus.stopf && bus.incoming == old(bus.incoming)
    ensures bus.cr2 == TransferWord(SENSOR_ADDR, 2, false, true)
    ensures bus.trace == old(bus.trace) + WriteFrames(SENSOR_ADDR & 0x7F, MuscleOxProfile(ledPower))
    ensures bus.waits == old(bus.waits) + ProfileWaits(|old(bus.trace)|, 9)
    ensures forall regs :: Receive(regs, DEVICE_ADDR, bus.trace[|old(bus.trace)|..]) == regs
  {
    InitMuscleOxAt(bus, SENSOR_ADDR, ledPower);
    ghost var sent := bus.trace[|old(bus.trace)|..];
    assert sent == WriteFrames(SENSOR_ADDR & 0x7F, MuscleOxProfile(ledPower));
    forall regs: RegisterFile
      ensures Receive(regs, DEVICE_ADDR, sent) == regs
    {
      SensorAddrAsWritten(regs, MuscleOxProfile(ledPower));
    }
  }

  // The sensor address: as written, and as intended.

  /**
   * As written, the profiles pass SENSOR_ADDR (0xAE, already shifted) to
   * I2C1_Write, which takes an unshifted 7-bit address and shifts it again: the
   * address bit 7 lands in SADD[8], which 7-bit mode ignores, and 0x2E goes on
   * the bus. The sensor, at 0x57, never sees a write addressed to it, and its
   * registers stay as they were, whatever the profile.
   */
  lemma SensorAddrAsWritten(regs: RegisterFile, p: seq<RegWrite>)
    ensures SENSOR_ADDR >= 0x80
    ensures SlaveAddress7(TransferWord(SENSOR_ADDR, 2, false, true)) == SENSOR_ADDR & 0x7F == 0x2E
    ensures Receive(regs, DEVICE_ADDR, WriteFrames(SENSOR_ADDR & 0x7F, p)) == regs
  {
    EightBitAddressTruncated(SENSOR_ADDR, 2, false, true);
    ReceiveForeignFrames(regs, DEVICE_ADDR, SENSOR_ADDR & 0x7F, p);
  }

  /**
   * Corrected: the unshifted address SENSOR_ADDR >> 1 is the sensor's own; it
   * goes on the bus unchanged, and a profile sent to it does to the sensor's
   * registers exactly what Apply says.
   */
  lemma SensorAddrCorrected(regs: RegisterFile, p: seq<RegWrite>)
    ensures SENSOR_ADDR_7BIT == DEVICE_ADDR < 0x80
    ensures SlaveAddress7(TransferWord(SENSOR_ADDR_7BIT, 2, false, true)) == DEVICE_ADDR
    ensures Receive(regs, DEVICE_ADDR, WriteFrames(SENSOR_ADDR_7BIT, p)) == Apply(regs, p)
  {
    SevenBitRoundTrip(SENSOR_ADDR_7BIT, 2, false, true);
    ReceiveOwnFrames(regs, DEVICE_ADDR, p);
  }

  /** Sending a profile to the sensor a second time leaves its registers as the first time did. */
  lemma SensorIdempotent(regs: RegisterFile, p: seq<RegWrite>)
    ensures var once := Receive(regs, DEVICE_ADDR, WriteFrames(SENSOR_ADDR_7BIT, p));
      Receive(once, DEVICE_ADDR, WriteFrames(SENSOR_ADDR_7BIT, p)) == once
  {
    var once := Receive(regs, DEVICE_ADDR, WriteFrames(SENSOR_ADDR_7BIT, p));
    SensorAddrCorrected(regs, p);
    SensorAddrCorrected(once, p);
    ApplyIdempotent(regs, p);
  }
}
