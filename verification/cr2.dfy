/**
 * The I2C control register 2 (CR2) of the STM32F3 I2C peripheral, as far as
 * the driver programs it: the slave address field SADD (bits 0-9, of which
 * bits 1-7 carry a 7-bit address), the transfer direction RD_WRN (bit 10),
 * START (bit 13), the byte count NBYTES (bits 16-23) and AUTOEND (bit 25).
 * The bit positions are those of the STM32F3 reference manual (RM0316); the
 * header that defines them for the source, stm32f303x8.h, is not part of this model.
 */
module Cr2 {

  const RD_WRN: bv32 := 1 << 10
  const ADD10: bv32 := 1 << 11
  const START: bv32 := 1 << 13
  const STOP: bv32 := 1 << 14
  const RELOAD: bv32 := 1 << 24
  const AUTOEND: bv32 := 1 << 25

  /** The bits a transfer word may occupy: SADD[8:1], RD_WRN, START, NBYTES, AUTOEND. */
  const FIELDS: bv32 := 0x1FE | RD_WRN | START | (0xFF << 16) | AUTOEND

  // How the peripheral reads the register (7-bit addressing, ADD10 = 0).

  /** The 7-bit address sent on the bus: SADD[7:1]. SADD[9], SADD[8] and SADD[0] are ignored. */
  function SlaveAddress7(w: bv32): bv8 {
    ((w >> 1) & 0x7F) as bv8
  }

  function NBytes(w: bv32): bv8 {
    ((w >> 16) & 0xFF) as bv8
  }

  predicate IsRead(w: bv32) {
    w & RD_WRN != 0
  }

  predicate IsAutoEnd(w: bv32) {
    w & AUTOEND != 0
  }

  predicate HasStart(w: bv32) {
    w & START != 0
  }

  /**
   * The word both driver functions write to start a transfer:
   * [AUTOEND |] [RD_WRN |] nbytes << 16 | slave << 1 | START.
   * The peripheral reads back the byte count, the direction and the end mode
   * unchanged, and the low seven bits of `slave` as the bus address; no bit
   * outside the fields is set, so the word never asks for 10-bit addressing,
   * RELOAD or an explicit STOP.
   */
  function TransferWord(slave: bv8, nbytes: bv8, read: bool, autoEnd: bool): (w: bv32)
    ensures NBytes(w) == nbytes
    ensures IsRead(w) == read && IsAutoEnd(w) == autoEnd && HasStart(w)
    ensures SlaveAddress7(w) == slave & 0x7F
    ensures w & ADD10 == 0 && w & STOP == 0 && w & RELOAD == 0
    ensures w & !FIELDS == 0
  {
    (if autoEnd then AUTOEND else 0) | (if read then RD_WRN else 0)
      | ((nbytes as bv32) << 16) | ((slave as bv32) << 1) | START
  }

  /** For a 7-bit address (not shifted) the address the peripheral sends is the caller's. */
  lemma SevenBitRoundTrip(slave: bv8, nbytes: bv8, read: bool, autoEnd: bool)
    requires slave < 0x80
    ensures SlaveAddress7(TransferWord(slave, nbytes, read, autoEnd)) == slave
  {
  }

  /** For a 7-bit address the fields do not overlap: the word determines all four arguments. */
  lemma TransferWordInjective(s1: bv8, n1: bv8, r1: bool, a1: bool, s2: bv8, n2: bv8, r2: bool, a2: bool)
    requires s1 < 0x80 && s2 < 0x80
    requires TransferWord(s1, n1, r1, a1) == TransferWord(s2, n2, r2, a2)
    ensures s1 == s2 && n1 == n2 && r1 == r2 && a1 == a2
  {
    SevenBitRoundTrip(s1, n1, r1, a1);
    SevenBitRoundTrip(s2, n2, r2, a2);
  }

  /**
   * An address of eight significant bits lands partly in SADD[8], which the
   * peripheral ignores in 7-bit mode: the address on the bus is not the caller's.
   */
  lemma EightBitAddressTruncated(slave: bv8, nbytes: bv8, read: bool, autoEnd: bool)
    requires slave >= 0x80
    ensures SlaveAddress7(TransferWord(slave, nbytes, read, autoEnd)) != slave
    ensures TransferWord(slave, nbytes, read, autoEnd) & 0x100 != 0
  {
  }

  // The three words the driver functions write, as the source spells them.

  lemma WriteWordIsTransferWord(slave: bv8)
    ensures AUTOEND | (2 << 16) | ((slave as bv32) << 1) | START == TransferWord(slave, 2, false, true)
  {
  }

  lemma AddressWordIsTransferWord(slave: bv8)
    ensures (1 << 16) | ((slave as bv32) << 1) | START == TransferWord(slave, 1, false, false)
  {
  }

  lemma ReadWordIsTransferWord(slave: bv8, size: bv8)
    ensures AUTOEND | RD_WRN | ((size as bv32) << 16) | ((slave as bv32) << 1) | START
            == TransferWord(slave, size, true, true)
  {
  }
}
