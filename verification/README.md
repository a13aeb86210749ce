# MAX30101 sensor driver on the STM32F3 I2C1 peripheral — a verified model

This project models the core of a small bare-metal driver in two layers.

**The I2C1 register transaction engine** (`Project/I2C.c`):
- `I2C1_Write` writes one byte to one register of a slave. It is a single two-byte write transfer with automatic STOP.
- `I2C1_Read` reads `size` bytes starting at a register. It uses the combined format of section 3.1.10 of the I2C-bus specification (NXP UM10204): first a one-byte write of the register address without STOP, then a repeated START for a read of `size` bytes with automatic STOP. Each received byte is stored into `data[i]`.

The peripheral is the class `I2c.I2C1`. Its fields:
- `cr2`, the CR2 register;
- `trace`, the append-only sequence of bus events (START with address, direction, byte count and end mode; transmitted byte; received byte; STOP);
- `waits`, the flags the driver has spun on;
- `incoming`, the bytes the slave will send;
- `phase`, the transfer in progress;
- `stopf`, the STOPF flag.

The hardware side is reduced to primitive steps: a write to CR2, a write to TXDR, a read of RXDR, and one step per spin loop. The driver methods call these steps in the source's order.

The bus rules are the automaton `BusEvents.Step`. Every event the peripheral emits is one that the rules allow. The CR2 words are built by `Cr2.TransferWord`, using the bit positions of the STM32F3 reference manual (RM0316). Decoding a word gives back its fields.

**The MAX30101 configuration profiles** (`Project/MAX30101.c`, with the register map of `Project/MAX30101.h`):
- `MAX30101_Init`, `MAX30101_InitSPO2Lite` and `MAX30101_InitMuscleOx(ledPower)` are straight-line sequences of `I2C1_Write(SENSOR_ADDR, register, value)` calls. Each is the method of the same name in `Max30101`. It passes `SENSOR_ADDR` as the source does.
- The straight-line write sequences themselves are `InitAt`, `InitSpo2LiteAt` and `InitMuscleOxAt`. These take the slave address as a parameter, so the same code can be run with the corrected address.
- Each method states every field of the peripheral afterwards:
  - the trace, which is the profile's write transfers in order;
  - CR2;
  - STOPF;
  - the spins, four per write;
  - the slave's pending bytes.
- The profile itself is data: a sequence of register writes (`InitProfile`, `Spo2LiteProfile`, `MuscleOxProfile`).
- The sensor is a register file, a map from register to byte. `Apply` runs a profile over it. `LastWrite` is an independent, register-by-register reference for `Apply`. `Receive` is the sensor listening on the bus.
- The lemmas prove, for each profile:
  - the exact final register values;
  - that the FIFO pointers are reset;
  - that untouched registers keep their values;
  - that applying a profile twice is the same as applying it once;
  - that a profile sent to the sensor's address does exactly what `Apply` says.

Bytes are `bv8`, CR2 is `bv32`. A byte used as a count (`size`) is converted by `Bytes.Value`, proved equal to the unsigned conversion.

I2C1_Write's documentation asks for a 7-bit slave address, not shifted (Project/I2C.c:39). The MAX30101's 7-bit address is 0x57. The header defines `SENSOR_ADDR` as 0xAE, which is that address already shifted left.

The model follows the code as written. `Init`, `InitSpo2Lite` and `InitMuscleOx` pass `SENSOR_ADDR`, and each states that its transfers leave the sensor's registers unchanged. The consequence is reported under Findings. The corrected behaviour is the same write sequence run with `SENSOR_ADDR >> 1` (`InitAt(bus, SENSOR_ADDR_7BIT)` and its two siblings). `SensorAddrCorrected` and `SensorIdempotent` state what that does to the sensor.

## Model

| member | source | states |
|---|---|---|
| `Bytes.ValueIsConversion` | Project/I2C.c:81 | the byte count the driver uses is the unsigned value of the `uint8_t` `size` |
| `Bytes.ValueBound` | Project/I2C.c:83 | a `uint8_t` count is below 256; `Read` uses it to meet `ReceiveInto`'s bound on the count, so the `uint8_t` loop counter never wraps |
| `Cr2.TransferWord` | Project/I2C.c:49 | the word `[AUTOEND] [RD_WRN] nbytes<<16 \| slave<<1 \| START` decodes back to NBYTES = nbytes, the direction, the end mode, START set, bus address = low 7 bits of `slave`; ADD10, STOP and RELOAD clear; no bit outside the fields set |
| `Cr2.SevenBitRoundTrip` | Project/I2C.c:39 | for a 7-bit (unshifted) address the address the peripheral sends is the caller's |
| `Cr2.TransferWordInjective` | Project/I2C.c:81 | for a 7-bit address the fields do not overlap: the word determines address, count, direction and end mode |
| `Cr2.EightBitAddressTruncated` | Project/I2C.c:49 | an address with bit 7 set lands partly in SADD[8], ignored in 7-bit mode: the bus address differs from the caller's |
| `Cr2.WriteWordIsTransferWord` | Project/I2C.c:49 | I2C1_Write's word is the transfer word for 2 bytes, write, automatic end |
| `Cr2.AddressWordIsTransferWord` | Project/I2C.c:73 | the first word of I2C1_Read is the transfer word for 1 byte, write, no automatic end |
| `Cr2.ReadWordIsTransferWord` | Project/I2C.c:81 | the second word of I2C1_Read is the transfer word for `size` bytes, read, automatic end |
| `BusEvents.RunAppend` | Project/I2C.c:68-90 | the bus rules run over two event sequences one after the other as over their concatenation |
| `BusEvents.CompleteAppend` | Project/I2C.c:44-90 | transfers that each return the bus to idle, one after the other, return it to idle |
| `BusEvents.RxEventsRun` | Project/I2C.c:83-87 | each received byte uses up one byte of the read transfer, in order |
| `BusEvents.WriteFrameComplete` | Project/I2C.c:48-57 | START (2 bytes, automatic end), register, data, STOP is one complete transfer |
| `BusEvents.CombinedReadComplete` | Project/I2C.c:72-89 | the combined-format read is complete, and after the register address the bus is held (no STOP) for the repeated START |
| `I2c.I2C1.Await` | Project/I2C.c:85 | a spin on a flag the peripheral raises; meanwhile a due automatic STOP goes out and sets STOPF |
| `I2c.I2C1.AutoStop` | Project/I2C.c:81 | with AUTOEND, a transfer that has moved all its bytes ends with STOP and STOPF; otherwise nothing happens |
| `I2c.I2C1.SetCr2` | Project/I2C.c:48-49 | CR2 takes the word; with START the peripheral starts the transfer it describes, on a free or held bus |
| `I2c.I2C1.WriteTxdr` | Project/I2C.c:52 | a byte written to TXDR goes on the bus and uses up one byte of the write transfer |
| `I2c.I2C1.ReadRxdr` | Project/I2C.c:86 | reading RXDR returns the slave's next byte, which is on the bus, and uses up one byte of the read transfer |
| `I2c.I2C1.Write` | Project/I2C.c:44-58 | CR2 ends as the 2-byte write word; the bus carries START(slave, write, 2, automatic end), register, data, STOP; spins BUSY, TXIS, TXIS, TXE in that order; bus free afterwards |
| `I2c.I2C1.SendRegister` | Project/I2C.c:70-78 | one-byte write without automatic end: START, register address, no STOP; spins BUSY, TXIS, TC; the bus is held for the repeated START |
| `I2c.I2C1.ReceiveInto` | Project/I2C.c:83-87 | for a count below 256 (a `uint8_t`): the counter stays below 256 throughout; `data[0..n)` receives the slave's next `n` bytes in order; `data[n..]` is unchanged; one RXNE spin comes before each byte; no STOP yet, STOPF unchanged |
| `I2c.I2C1.Read` | Project/I2C.c:68-90 | CR2 ends as the read word; the bus carries exactly the combined-format read of the register; `data[0..size)` holds the received bytes in order and the rest of `data` is unchanged (nothing stored for `size` = 0); spins BUSY, TXIS, TC, RXNE per byte, STOPF |
| `Max30101.InitProfile` | Project/MAX30101.c:13-19 | exactly seven writes, those of MAX30101_Init in issue order (FIFO_CONFIG 0x10, MODE_CONFIG 0x03, SPO2_CONFIG 0x2F, FIFO_READPTR 0, FIFO_WRITPTR 0, LED1 0x3F, LED2 0x3F) |
| `Max30101.Spo2LiteProfile` | Project/MAX30101.c:30-37 | exactly eight writes, those of MAX30101_InitSPO2Lite in issue order (FIFO_CONFIG 0x4F, MODE_CONFIG 0x03, SPO2_CONFIG 0x23, FIFO_READPTR 0, FIFO_WRITPTR 0, LED1 0x18, LED2 0x18, DIE_TEMPCFG 0x01) |
| `Max30101.MuscleOxProfile` | Project/MAX30101.c:48-56 | exactly nine writes, those of MAX30101_InitMuscleOx in issue order (FIFO_CONFIG 0x4F, MODE_CONFIG 0x07, SPO2_CONFIG 0x26, FIFO_READPTR 0, FIFO_WRITPTR 0, LED1-LED3 `ledPower`, DIE_TEMPCFG 0x01) |
| `Max30101Regs.ProfileRegistersDistinct` | Project/MAX30101.h:11-27 | the nine registers the profiles write are pairwise distinct |
| `Max30101Regs.LedRegistersConsecutive` | Project/MAX30101.h:19-22 | LED1..LED4 amplitude registers are consecutive addresses |
| `Max30101Regs.FifoBlockLayout` | Project/MAX30101.h:11-14 | write pointer, overflow counter, read pointer, data register are consecutive, in that order |
| `Max30101.ApplyPointwise` | Project/MAX30101.c:12-57 | after a sequence of writes, a written register holds its last write and every other register keeps its value |
| `Max30101.ApplyFrame` | Project/MAX30101.c:12-57 | registers a profile does not name keep their values (frame) |
| `Max30101.ApplyIdempotent` | Project/MAX30101.c:12-57 | applying a profile twice gives the register file applying it once gives |
| `Max30101.DistinctWriteFinal` | Project/MAX30101.c:12-57 | in a profile that writes no register twice every write is that register's final value |
| `Max30101.InitDistinct` | Project/MAX30101.c:12-20 | MAX30101_Init writes no register twice |
| `Max30101.Spo2LiteDistinct` | Project/MAX30101.c:29-38 | MAX30101_InitSPO2Lite writes no register twice |
| `Max30101.MuscleOxDistinct` | Project/MAX30101.c:47-57 | MAX30101_InitMuscleOx writes no register twice, whatever `ledPower` |
| `Max30101.InitValues` | Project/MAX30101.c:12-20 | after MAX30101_Init: FIFO_CONFIG 0x10, MODE_CONFIG 0x03, SPO2_CONFIG 0x2F, both FIFO pointers 0, LED1 and LED2 0x3F |
| `Max30101.InitFrame` | Project/MAX30101.c:12-20 | MAX30101_Init leaves every other register, LED3 and DIE_TEMPCFG among them, as it was |
| `Max30101.Spo2LiteValues` | Project/MAX30101.c:29-38 | after MAX30101_InitSPO2Lite: FIFO_CONFIG 0x4F, MODE_CONFIG 0x03, SPO2_CONFIG 0x23, both FIFO pointers 0, LED1 and LED2 0x18, DIE_TEMPCFG 0x01 |
| `Max30101.Spo2LiteFrame` | Project/MAX30101.c:29-38 | MAX30101_InitSPO2Lite leaves every other register, LED3 among them, as it was |
| `Max30101.MuscleOxValues` | Project/MAX30101.c:47-57 | after MAX30101_InitMuscleOx: FIFO_CONFIG 0x4F, MODE_CONFIG 0x07 (multi-LED), SPO2_CONFIG 0x26, both FIFO pointers 0, LED1, LED2 and LED3 equal to `ledPower` unchanged, DIE_TEMPCFG 0x01 |
| `Max30101.MuscleOxFrame` | Project/MAX30101.c:47-57 | MAX30101_InitMuscleOx leaves every other register, LED4 among them, as it was |
| `Max30101.FifoPointersReset` | Project/MAX30101.c:16-52 | every profile leaves both FIFO pointers at 0 |
| `Max30101.WriteFramesComplete` | Project/MAX30101.c:13-56 | a profile on the bus is complete transfers, every START addressed to the one slave in the write direction |
| `Max30101.ReceiveOwnFrames` | Project/MAX30101.c:13-56 | the sensor that hears a profile sent to its address ends with the register file Apply gives |
| `Max30101.ReceiveForeignFrames` | Project/MAX30101.c:13-56 | a profile sent to another address leaves the sensor's registers as they were |
| `Max30101.InitAt` | Project/MAX30101.c:13-19 | the seven I2C1_Write calls to `slave`: the bus carries the profile's seven write transfers to `slave & 0x7F`, in order; CR2 ends as the write word; STOPF set; four spins per write; bus free afterwards |
| `Max30101.InitSpo2LiteAt` | Project/MAX30101.c:30-37 | the eight I2C1_Write calls to `slave`: the bus carries the profile's eight write transfers to `slave & 0x7F`, in order; CR2, STOPF, the spins and a free bus as for `InitAt` |
| `Max30101.InitMuscleOxAt` | Project/MAX30101.c:48-56 | the nine I2C1_Write calls to `slave`: the bus carries the profile's nine write transfers to `slave & 0x7F`, in order; CR2, STOPF, the spins and a free bus as for `InitAt` |
| `Max30101.Init` | Project/MAX30101.c:12-20 | MAX30101_Init as written, to SENSOR_ADDR: the seven transfers go to SENSOR_ADDR & 0x7F (0x2E), and the sensor at 0x57 that hears them keeps every register as it was |
| `Max30101.InitSpo2Lite` | Project/MAX30101.c:29-38 | MAX30101_InitSPO2Lite as written, to SENSOR_ADDR: the eight transfers go to 0x2E, and the sensor's registers stay as they were |
| `Max30101.InitMuscleOx` | Project/MAX30101.c:47-57 | MAX30101_InitMuscleOx(ledPower) as written, to SENSOR_ADDR: the nine transfers go to 0x2E, and the sensor's registers stay as they were |
| `Max30101.SensorAddrAsWritten` | Project/MAX30101.h:5 | as written, SENSOR_ADDR (0xAE) goes on the bus as 0x2E, and a profile sent there leaves the sensor at 0x57 unchanged |
| `Max30101.SensorAddrCorrected` | Project/MAX30101.h:5 | SENSOR_ADDR >> 1 is the sensor's 7-bit address 0x57, goes on the bus unchanged, and a profile sent there does exactly what Apply says |
| `Max30101.SensorIdempotent` | Project/MAX30101.c:12-57 | sending a profile to the sensor a second time leaves its registers as the first time did |

## Left out

- `I2C1_Config` (Project/I2C.c:9-34): clock, GPIO and timing register set-up with no behaviour to state.
- Project/main.c (clock bring-up, the main loop, the SysTick handler), Project/LED.c (GPIO toggles) and Project/I2C.h (prototypes only) are not part of this model.
- The device header stm32f303x8.h is not part of this model. The CR2 bit positions are taken from the STM32F3 reference manual.
- Spin loops are single abstract steps. Each step requires that the peripheral raises the flag. Termination, timeouts, NACK, arbitration loss and bus errors are not modelled. The source has no handling for them and would spin forever.
- `I2c.I2C1.Read`: requires that the slave supplies at least `size` bytes (`incoming`). A slave that sends fewer would leave the source spinning on RXNE.
- `I2c.I2C1.Read` and `I2c.I2C1.Write` require a free bus (`Quiescent`), where the source spins on BUSY until the bus is free.
- The class predicate `Quiescent` states only that the bus is free. That the trace is made of complete transfers is proved by lemmas (`WriteFrameComplete`, `CombinedReadComplete`, `CompleteAppend`, `WriteFramesComplete`), not carried as a class invariant.
- Timing of the automatic STOP: it is emitted during the first spin after the last byte. For `I2C1_Write` that is the TXE spin; for `I2C1_Read` it is the STOPF spin. On the hardware the STOP may come slightly after TXE, and the next call's BUSY spin waits for it.
- STOPF is set by each STOP and never cleared, as in the source. The STOPF spin of a later read is therefore satisfied at once.
- `I2C1_Read` is split into `SendRegister` (lines 70-78) and `ReceiveInto` (lines 83-87) with `Read` calling both. The statements and their order are those of the source.
- The sensor model (`Receive`) understands only two-byte write transfers (register, value) addressed to it. Multi-byte writes with register auto-increment, and reads, are not modelled; the profiles use neither.
- The FIFO sample pipeline (occupancy from the pointers, draining, byte-pair decoding, current scaling) is not in the source. Only commented-out prototypes exist, at Project/MAX30101.h:34-35. It is not modelled.
- `SPO2_CONFIG` is defined twice in the header (Project/MAX30101.h:17-18), both times as 0x0A. Dafny does not allow a constant to be declared twice, so it is declared once.

## Findings

| source | as written | input that shows it | evidently intended | confidence | as-written member | corrected member |
|---|---|---|---|---|---|---|
| Project/MAX30101.h:5 | `SENSOR_ADDR` is 0xAE, the address already shifted left. `I2C1_Write(SENSOR_ADDR, …)` shifts it again (Project/I2C.c:49): bit 7 lands in SADD[8], which 7-bit mode ignores, and 0x2E goes on the bus | any profile, e.g. `MAX30101_Init`: its first START carries address 0x2E, so the sensor at 0x57 is never addressed and none of its registers change. On the hardware nobody acknowledges 0x2E: NACKF is set, TXIS never comes, and `I2C1_Write` spins forever at Project/I2C.c:51, so the first call never returns. NACK is outside the model, which lets all the transfers complete. | pass the unshifted 7-bit address 0x57 (`SENSOR_ADDR >> 1`), as I2C1_Write's parameter documentation asks (Project/I2C.c:39) | high; not executed | `Max30101.SensorAddrAsWritten` | `Max30101.SensorAddrCorrected` |
