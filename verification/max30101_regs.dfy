/**
 * The register map of the MAX30101 pulse-oximetry and heart-rate sensor, as
 * the driver's header (Project/MAX30101.h) defines it: the sensor's bus
 * address and the addresses of its registers.
 */
module Max30101Regs {

  /** The sensor's address as the header defines it: the 7-bit address 0x57 already shifted left. */
  const SENSOR_ADDR: bv8 := 0xAE

  const INTR_STATUS1: bv8 := 0x00
  const INTR_STATUS2: bv8 := 0x01
  const INTR_ENABLE1: bv8 := 0x02
  const INTR_ENABLE2: bv8 := 0x03
  const FIFO_WRITPTR: bv8 := 0x04
  const OVRF_COUNTER: bv8 := 0x05
  const FIFO_READPTR: bv8 := 0x06
  const FIFO_DATAREG: bv8 := 0x07
  const FIFO_CONFIG: bv8 := 0x08
  const MODE_CONFIG: bv8 := 0x09
  /** Defined twice in the header, both times as 0x0A, so both definitions name this one register. */
  const SPO2_CONFIG: bv8 := 0x0A
  const LED1_PAMPLI: bv8 := 0x0C
  const LED2_PAMPLI: bv8 := 0x0D
  const LED3_PAMPLI: bv8 := 0x0E
  const LED4_PAMPLI: bv8 := 0x0F
  const MLED_CONFG1: bv8 := 0x11
  const MLED_CONFG2: bv8 := 0x12
  const DIE_TEMPINT: bv8 := 0x1F
  const DIE_TEMPFRC: bv8 := 0x20
  const DIE_TEMPCFG: bv8 := 0x21

  const BUFFERBLOCKSIZE: nat := 8

  /** No two entries of `regs` are the same register. */
  predicate Distinct(regs: seq<bv8>) {
    forall i, j :: 0 <= i < j < |regs| ==> regs[i] != regs[j]
  }

  /** The registers the configuration profiles write. */
  function ProfileRegisters(): seq<bv8> {
    [FIFO_WRITPTR, FIFO_READPTR, FIFO_CONFIG, MODE_CONFIG, SPO2_CONFIG,
     LED1_PAMPLI, LED2_PAMPLI, LED3_PAMPLI, DIE_TEMPCFG]
  }

  /** The registers the profiles write are nine different registers. */
  lemma ProfileRegistersDistinct()
    ensures Distinct(ProfileRegisters())
  {
  }

  /** The four LED pulse-amplitude registers are consecutive, LED1 first. */
  lemma LedRegistersConsecutive()
    ensures LED2_PAMPLI == LED1_PAMPLI + 1 && LED3_PAMPLI == LED1_PAMPLI + 2
    ensures LED4_PAMPLI == LED1_PAMPLI + 3
  {
  }

  /** The FIFO block: write pointer, overflow counter, read pointer, data register. */
  lemma FifoBlockLayout()
    ensures OVRF_COUNTER == FIFO_WRITPTR + 1 && FIFO_READPTR == FIFO_WRITPTR + 2
    ensures FIFO_DATAREG == FIFO_WRITPTR + 3
  {
  }
}
