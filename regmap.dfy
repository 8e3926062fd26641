/*
 * Register map of the UWFD64 waveform digitizer (uwfd64.h): the three VME
 * address windows of a module, the bit fields of the main and trigger CSRs,
 * the serial-bus ports of the A32 window and the address map of the four
 * slave Xilinxes reached through the inter-Xilinx (ICX) SPI link.
 */
module RegMap {

  // ---------------------------------------------------------------- words

  /** The 32-bit two's-complement pattern of a C `int`. */
  function Word(x: int): bv32
  {
    (x % 0x1_0000_0000) as bv32
  }

  /** Truncation to an `unsigned char`. */
  function Byte(x: int): (b: int)
    ensures 0 <= b < 256
  {
    x % 256
  }

  /** Truncation to a (signed) `char`: the value of the low byte taken in two's complement. */
  function Char(x: int): (c: int)
    ensures -128 <= c < 128 && (x - c) % 256 == 0
  {
    if x % 256 < 128 then x % 256 else x % 256 - 256
  }

  /** 2 to the power `n`. */
  function Pow2(n: nat): (p: nat)
    ensures p >= 1
  {
    if n == 0 then 1 else 2 * Pow2(n - 1)
  }

  /**
   * `a & m` for a C `int` `a`, taken in two's complement, and a non-negative
   * mask `m`: bit by bit from the lowest, since `a / 2` and `a % 2` are the
   * arithmetic shift and the lowest bit of `a` for negative `a` too.
   */
  function And(a: int, m: nat): (r: nat)
    ensures r <= m
    decreases m
  {
    if m == 0 then 0
    else 2 * And(a / 2, m / 2) + (if a % 2 == 1 && m % 2 == 1 then 1 else 0)
  }

  /** `a | b` for non-negative `a` and `b`. */
  function Or(a: nat, b: nat): (r: nat)
    ensures a <= r && b <= r && r <= a + b
    decreases a + b
  {
    if a == 0 then b
    else if b == 0 then a
    else 2 * Or(a / 2, b / 2) + (if a % 2 == 1 || b % 2 == 1 then 1 else 0)
  }

  /** Masking with the `n` lowest bits keeps the value modulo 2^n. */
  lemma {:induction false} AndLowBits(a: int, n: nat)
    ensures And(a, Pow2(n) - 1) == a % Pow2(n)
    decreases n
  {
    if n > 0 {
      var p := Pow2(n - 1);
      assert (Pow2(n) - 1) / 2 == p - 1 && (Pow2(n) - 1) % 2 == 1;
      AndLowBits(a / 2, n - 1);
      ModOfHalf(a, p);
    }
  }

  /** The remainder by `2p` from the remainder of the halved value by `p`. */
  lemma ModOfHalf(a: int, p: nat)
    requires p > 0
    ensures a % (2 * p) == 2 * ((a / 2) % p) + a % 2
  {
    var q := (a / 2) / p;
    var r := (a / 2) % p;
    assert a / 2 == p * q + r;
    assert a == (2 * p) * q + (2 * r + a % 2);
    ModUnique(a, 2 * p, q, 2 * r + a % 2);
  }

  /** Euclidean division has one quotient and one remainder. */
  lemma ModUnique(a: int, d: int, q: int, r: int)
    requires d > 0 && a == d * q + r && 0 <= r < d
    ensures a % d == r
  {
    var k := q - a / d;
    assert d * k == a % d - r by {
      assert a == d * (a / d) + a % d;
      assert d * q - d * (a / d) == d * k;
    }
    if k >= 1 {
      MultipleAtLeast(d, k);
    } else if k <= -1 {
      assert d * (-k) == -(d * k);
      MultipleAtLeast(d, -k);
    }
  }

  /** Euclidean division has one quotient. */
  lemma DivUnique(a: int, d: int, q: int, r: int)
    requires d > 0 && a == d * q + r && 0 <= r < d
    ensures a / d == q
  {
    ModUnique(a, d, q, r);
    assert d * (a / d) == d * q;
  }

  lemma {:induction false} MultipleAtLeast(d: int, k: int)
    requires d > 0 && k >= 1
    ensures d * k >= d
    decreases k
  {
    if k > 1 {
      MultipleAtLeast(d, k - 1);
      assert d * k == d * (k - 1) + d;
    }
  }

  // ---------------------------------------------------------------- A16 window (CPLD)

  const A16BASE: int := 0xA000
  const A16STEP: int := 0x10
  const CPLD_C2X_GA: int := 1
  const CPLD_C2X_PARITY: int := 0x20
  const CPLD_C2X_RESET: int := 0x80

  // ---------------------------------------------------------------- A32 window

  const A32BASE: int := 0xAA00_0000
  const A32STEP: int := 0x1_0000

  const MAIN_MUX_MASK: bv32 := 7
  const MAIN_CSR_TRG: bv32 := 1
  const MAIN_CSR_INH: bv32 := 0x10
  const MAIN_CSR_CLK: bv32 := 0x100
  const MAIN_CSR_AUXOUT: bv32 := 0x1000
  const MAIN_CSR_TOKSYNC: bv32 := 0x2000
  const MAIN_CSR_USER: bv32 := 0x1_0000
  const MAIN_CSR_USER_MASK: bv32 := 0x7FFF_0000
  const MAIN_CSR_RESET: bv32 := 0x8000_0000

  const TRIG_CSR_CHAN: bv32 := 1
  const TRIG_CSR_CHAN_MASK: bv32 := 0xF
  const TRIG_CSR_SRCOR: bv32 := 0x10
  const TRIG_CSR_SRCOR_MASK: bv32 := 0x7F0
  const TRIG_CSR_BLOCK: bv32 := 0x80
  const TRIG_CSR_BLOCK_MASK: bv32 := 0xFF80
  const TRIG_CSR_SOFT: bv32 := 0x1_0000
  const TRIG_CSR_SOFT_MASK: bv32 := 0x1FFF_0000
  const TRIG_CSR_AUXIN: bv32 := 0x2000_0000
  const TRIG_CSR_TRIG2FIFO: bv32 := 0x4000_0000
  const TRIG_CSR_INHIBIT: bv32 := 0x8000_0000

  const SPI_CSR_CS: int := 1
  const SPI_CSR_DIR: int := 0x100
  const SPI_CSR_BUSY: nat := 0x8000
  const SPI_TIMEOUT: nat := 100
  const SPI_ADDR_DIR: int := 0x8000

  const I2C_TIMEOUT: nat := 500
  const I2C_PRESC: int := 0xC0
  const I2C_CTR_CORE_ENABLE: int := 0x80
  const I2C_DAT_DDIR: int := 1
  const I2C_SR_START: int := 0x80
  const I2C_SR_STOP: int := 0x40
  const I2C_SR_READ: int := 0x20
  const I2C_SR_WRITE: int := 0x10
  const I2C_SR_ACK: int := 0x08
  const I2C_SR_RXACK: nat := 0x80
  const I2C_SR_TRANSFER_IN_PRG: nat := 0x02

  const FIFO_CSR_EMPTY: bv32 := 1
  const FIFO_CSR_ERROR: bv32 := 0xEE_EEEE
  const FIFO_CSR_SRESET: bv32 := 0x2000_0000
  const FIFO_CSR_HRESET: bv32 := 0x4000_0000
  const FIFO_CSR_ENABLE: bv32 := 0x8000_0000

  /** The three serial-bus register pairs of the A32 window. */
  datatype Bus = IcxBus | DacBus | I2cBus

  /** Registers of a serial-bus port (the I2C master also has a prescaler and a control register). */
  datatype PortReg = Csr | Dat | PrescLo | PrescHi | Ctr

  // CDCUN1208LP master clock multiplexer on the main I2C bus
  const CDCUN_ADDR: int := 0x50
  const CDCUN_OUT_ERC_MEDIUM: int := 0x380
  const CDCUN_OUT_ERC_FAST: int := 0x200
  const CDCUN_OUT_ERC_SLOW: int := 0
  const CDCUN_OUT_DIFF_ON: int := 0x18
  const CDCUN_OUT_DISABLE: int := 1
  const CDCUN_INPUT_ADDR: int := 11
  const CDCUN_INPUT_MUX_IN2: int := 1
  const CDCUN_INPUT_MUX_IN1: int := 0
  const CDCUN_CTRL_ADDR: int := 15
  const CDCUN_CTRL_RESET: int := 2

  // ---------------------------------------------------------------- A64 window (SDRAM)

  const A64BASE: int := 0xAAAA_AA00_0000_0000
  const A64STEP: int := 0x1_0000_0000
  const MEMSIZE: int := 0x2000_0000
  const MBYTE: int := 0x10_0000

  // ---------------------------------------------------------------- slave Xilinx map

  const ICX_SLAVE_STEP: int := 0x2000
  const ICX_SLAVE_CSR_IN: int := 0
  const ICX_SLAVE_CSR_OUT: int := 1
  const ICX_SLAVE_SPI_DAT: int := 6
  const ICX_SLAVE_SPI_CSR: int := 7
  const ICX_SLAVE_I2C_PRCL: int := 8
  const ICX_SLAVE_I2C_PRCH: int := 9
  const ICX_SLAVE_I2C_CTR: int := 10
  const ICX_SLAVE_I2C_DAT: int := 11
  const ICX_SLAVE_I2C_CSR: int := 12
  const ICX_SLAVE_COEF: int := 16
  const ICX_SLAVE_MTMASK: int := 32
  const ICX_SLAVE_STMASK: int := 33
  const ICX_SLAVE_SUMASK: int := 34
  const ICX_SLAVE_INVMASK: int := 35
  const ICX_SLAVE_MTTHR: int := 36
  const ICX_SLAVE_STTHR: int := 37
  const ICX_SLAVE_SUTHR: int := 38
  const ICX_SLAVE_STPRC: int := 39
  const ICX_SLAVE_WINLEN: int := 40
  const ICX_SLAVE_MTWINBEG: int := 41
  const ICX_SLAVE_STWINBEG: int := 42
  const ICX_SLAVE_SUWINBEG: int := 43
  const ICX_SLAVE_SUDELAY: int := 44
  const ICX_SLAVE_MTZBEG: int := 45
  const ICX_SLAVE_MTZEND: int := 46
  const ICX_SLAVE_PED: int := 48
  const ICX_SLAVE_ADC: int := 64
  const ICX_SLAVE_ADC_STEP: int := 16
  const ICX_SLAVE_ADC_CSR: int := 0
  const ICX_SLAVE_ADC_CFRQ: int := 1
  const ICX_SLAVE_ADC_CERR: int := 2
  const ICX_SLAVE_ADC_IBS: int := 6
  const ICX_SLAVE_ADC_CINS: int := 7

  const SLAVE_CSR_TSTART: int := 0x80
  const SLAVE_CSR_HISTENABLE: int := 0x4000
  const SLAVE_ADCCSR_DINC: int := 0x200
  const SLAVE_ADCCSR_DRST: int := 0x400
  const SLAVE_ADCCSR_DCAL: int := 0x800
  const SLAVE_ADCCSR_BSRST: int := 0x1000
  const SLAVE_ADCCSR_BSENB: int := 0x2000
  const SLAVE_ADCCSR_MBSENB: int := 0x4000

  const L2C_TIMEOUT: nat := 100

  // AD9249-family ADC registers used by the library
  const ADC_REG_CFG: int := 0
  const ADC_CFG_RESET: int := 0x24
  const ADC_REG_ID: int := 1
  const ADC_REG_GRADE: int := 2
  const ADC_REG_PWR: int := 8
  const ADC_PWR_DOWN: int := 1
  const ADC_PWR_RESET: int := 3
  const ADC_REG_TEST: int := 13
  const ADC_TEST_PN23: int := 5
  const ADC_TEST_USER: int := 8
  const ADC_REG_OUTPUT: int := 0x14
  const ADC_REG_PAT1L: int := 0x19
  const ADC_REG_PAT1H: int := 0x1A
  const ADC_REG_SYNC: int := 0x109

  // Si5338 slave clock synthesizer behind each slave Xilinx
  const SI5338_ADDR: int := 0xE0
  const SI5338_REG_FCALOVRL: int := 45
  const SI5338_REG_FCALOVRM: int := 46
  const SI5338_REG_FCALOVRH: int := 47
  const SI5338_FCALOVRH_CONST: bv8 := 0x14
  const SI5338_REG_CTRL: int := 49
  const SI5338_CTRL_FCALOVR: bv8 := 0x80
  const SI5338_REG_STATUS: int := 218
  const SI5338_STATUS_LOL: bv8 := 0x10
  const SI5338_STATUS_CLKIN: bv8 := 4
  const SI5338_STATUS_SYSCAL: bv8 := 1
  const SI5338_REG_OUT: int := 230
  const SI5338_OUT_DISABLE_ALL: bv8 := 0x1F
  const SI5338_REG_FCALL: int := 235
  const SI5338_REG_FCALM: int := 236
  const SI5338_REG_FCALH: int := 237
  const SI5338_REG_LOL: int := 241
  const SI5338_LOL_DISABLE: bv8 := 0x80
  const SI5338_LOL_CONST: bv8 := 0x65
  const SI5338_REG_SRESET: int := 246
  const SI5338_SRESET_RESET: bv8 := 2
  const SI5338_REG_PAGE: int := 255
  const SI5338_TIMEOUT: nat := 100

  // ---------------------------------------------------------------- module windows

  /** VME A16 address of the CPLD registers of the module with serial number `serial`. */
  function Base16(serial: int): int
  {
    A16BASE + serial * A16STEP
  }

  /** VME A32 address of the register window of the module in geographic slot `ga`. */
  function Base32(ga: int): int
  {
    A32BASE + ga * A32STEP
  }

  /** VME A64 address of the SDRAM window of the module in geographic slot `ga`. */
  function Base64(ga: int): int
  {
    A64BASE + ga * A64STEP
  }

  /** Distinct modules own disjoint windows in all three spaces, and every window fits its space. */
  lemma WindowsDisjoint(s1: int, s2: int, g1: int, g2: int)
    requires 0 <= s1 < s2 < 256 && 0 <= g1 < g2 < 32
    ensures Base16(s1) + A16STEP <= Base16(s2) && Base16(s2) + A16STEP <= 0x1_0000
    ensures Base32(g1) + A32STEP <= Base32(g2) && Base32(g2) + A32STEP <= 0x1_0000_0000
    ensures Base64(g1) + A64STEP <= Base64(g2) && Base64(g2) + A64STEP <= 0x1_0000_0000_0000_0000
    ensures MEMSIZE <= A64STEP
  {
  }

  /** Bits 15:8 of a CPLD register, `(x >> 8) & 0xFF`. */
  function HighByte(x: int): int
  {
    And(x / 256, 0xFF)
  }

  /** A register holding `s` in its high byte and anything in its low byte has high byte `s`. */
  lemma HighByteOf(s: int, b: int)
    requires 0 <= s < 256 && 0 <= b < 256
    ensures HighByte(s * 256 + b) == s
  {
    DivUnique(s * 256 + b, 256, s, b);
    assert Pow2(8) == 256;
    AndLowBits(s, 8);
    ModUnique(s, 256, 0, s);
  }

  // ---------------------------------------------------------------- main CSR

  /**
   * The main CSR word Init composes from the configuration: the trigger,
   * inhibit and clock multiplexer modes, the 15-bit user word, the auxiliary
   * trigger output and token synchronisation enables.  The multiplications by
   * the one-bit field constants are written as shifts, and the user word is
   * computed on 32 bits, so a value too large for C `int` wraps.  Every field
   * reads back what was put in, and the blocking bits, the test pulse, the
   * general purpose outputs and RESET are left clear.
   */
  function MainCsrWord(trig: int, inh: int, clk: int, user: int, aux: int, tok: int): (w: bv32)
    ensures w & MAIN_MUX_MASK == Word(trig) & MAIN_MUX_MASK
    ensures (w >> 4) & MAIN_MUX_MASK == Word(inh) & MAIN_MUX_MASK
    ensures (w >> 8) & MAIN_MUX_MASK == Word(clk) & MAIN_MUX_MASK
    ensures (w >> 12) & 1 == Word(aux) & 1
    ensures (w >> 13) & 1 == Word(tok) & 1
    ensures (w >> 16) & 0x7FFF == Word(user) & 0x7FFF
    ensures w & 0x8000_C888 == 0
  {
    (Word(trig) & MAIN_MUX_MASK) + ((Word(inh) & MAIN_MUX_MASK) << 4)
    + ((Word(clk) & MAIN_MUX_MASK) << 8) + ((Word(user) << 16) & MAIN_CSR_USER_MASK)
    + ((Word(aux) & 1) << 12) + ((Word(tok) & 1) << 13)
  }

  /** Replaces the user word field of the main CSR and keeps every other bit (WriteUserWord). */
  function WithUserWord(csr: bv32, num: int): (w: bv32)
    ensures w & !MAIN_CSR_USER_MASK == csr & !MAIN_CSR_USER_MASK
    ensures (w >> 16) & 0x7FFF == Word(num) & 0x7FFF
  {
    (csr & !MAIN_CSR_USER_MASK) | ((Word(num) << 16) & MAIN_CSR_USER_MASK)
  }

  // ---------------------------------------------------------------- trigger CSR

  /**
   * The trigger CSR word as Init computes it.  The OR-time field is cut with
   * TRIG_CSR_SRCOR_MASK = 0x7F0 (bits 10:4), which overlaps the blocking-time
   * field 15:7 documented beside it, and the masked terms are added.
   */
  function TrigCsrWordAsWritten(auxIn: int, toFifo: int, blk: int, orTime: int, gen: int): bv32
  {
    TRIG_CSR_INHIBIT + (Word(auxIn) << 29) + (Word(toFifo) << 30)
    + ((Word(blk) << 7) & TRIG_CSR_BLOCK_MASK)
    + ((Word(orTime) << 4) & TRIG_CSR_SRCOR_MASK)
    + (Word(gen) & TRIG_CSR_CHAN_MASK)
  }

  /** The two masks share bits 7 to 10. */
  lemma TrigCsrMasksOverlap()
    ensures TRIG_CSR_SRCOR_MASK & TRIG_CSR_BLOCK_MASK == 0x780
  {
  }

  /**
   * With no blocking time configured, an OR time of 8 clocks already sets the
   * lowest bit of the blocking-time field, and OR time 8 with blocking time 1
   * carries into the next bit.
   */
  lemma TrigCsrOrTimeLeaksIntoBlockTime()
    ensures (TrigCsrWordAsWritten(0, 0, 0, 8, 0) >> 7) & 0x1FF == 1
    ensures (TrigCsrWordAsWritten(0, 0, 1, 8, 0) >> 7) & 0x1FF == 2
  {
    assert Word(0) == 0 && Word(1) == 1 && Word(8) == 8;
    assert TrigCsrWordAsWritten(0, 0, 0, 8, 0) == 0x8000_0080;
    assert TrigCsrWordAsWritten(0, 0, 1, 8, 0) == 0x8000_0100;
  }

  /** Width of the OR-time field as documented (bits 6:4). */
  const TRIG_CSR_SRCOR_FIELD: bv32 := 0x70

  /**
   * The trigger CSR word with the OR-time field cut to its documented three
   * bits: every field reads back exactly the configured value, the soft
   * trigger period is zero and the module starts inhibited.
   */
  function TrigCsrWord(auxIn: int, toFifo: int, blk: int, orTime: int, gen: int): (w: bv32)
    ensures w & TRIG_CSR_CHAN_MASK == Word(gen) & TRIG_CSR_CHAN_MASK
    ensures (w >> 4) & 7 == Word(orTime) & 7
    ensures (w >> 7) & 0x1FF == Word(blk) & 0x1FF
    ensures w & TRIG_CSR_SOFT_MASK == 0
    ensures Word(auxIn) | Word(toFifo) <= 1 ==>
              w >> 29 == 4 + Word(auxIn) + (Word(toFifo) << 1)
  {
    TRIG_CSR_INHIBIT + (Word(auxIn) << 29) + (Word(toFifo) << 30)
    + ((Word(blk) << 7) & TRIG_CSR_BLOCK_MASK)
    + ((Word(orTime) << 4) & TRIG_CSR_SRCOR_FIELD)
    + (Word(gen) & TRIG_CSR_CHAN_MASK)
  }

  /** Replaces the soft-trigger period of the trigger CSR and keeps every other bit (SoftTrigger). */
  function WithSoftPeriod(csr: bv32, freq: int): (w: bv32)
    ensures w & !TRIG_CSR_SOFT_MASK == csr & !TRIG_CSR_SOFT_MASK
    ensures (w >> 16) & 0x1FFF == Word(freq) & 0x1FFF
  {
    (csr & !TRIG_CSR_SOFT_MASK) | ((Word(freq) << 16) & TRIG_CSR_SOFT_MASK)
  }

  // ---------------------------------------------------------------- slave Xilinx addresses

  /** ICX address of register `r` of slave Xilinx `x`. */
  function SlaveReg(x: int, r: int): int
  {
    ICX_SLAVE_STEP * x + r
  }

  /** ICX address of the receiver register block of ADC `i` (0-15): four ADCs per slave. */
  function AdcBase(i: int): int
  {
    ICX_SLAVE_STEP * (i / 4) + ICX_SLAVE_ADC + ICX_SLAVE_ADC_STEP * (i % 4)
  }

  /** The ADC and the register within its receiver block that an ICX address designates. */
  function AdcOfAddress(a: int): (r: (int, int))
  {
    (4 * (a / ICX_SLAVE_STEP) + (a % ICX_SLAVE_STEP - ICX_SLAVE_ADC) / ICX_SLAVE_ADC_STEP,
     (a % ICX_SLAVE_STEP - ICX_SLAVE_ADC) % ICX_SLAVE_ADC_STEP)
  }

  /**
   * The sixteen receiver blocks of 16 registers never overlap each other nor
   * the slave's own configuration registers (addresses below ICX_SLAVE_ADC):
   * an address inside a block names its ADC and register uniquely.
   */
  lemma AdcAddressDecodes(i: int, k: int)
    requires 0 <= i < 16 && 0 <= k < ICX_SLAVE_ADC_STEP
    ensures AdcOfAddress(AdcBase(i) + k) == (i, k)
    ensures (AdcBase(i) + k) / ICX_SLAVE_STEP == i / 4
    ensures ICX_SLAVE_ADC <= (AdcBase(i) + k) % ICX_SLAVE_STEP < ICX_SLAVE_ADC + 4 * ICX_SLAVE_ADC_STEP
  {
    var a := AdcBase(i) + k;
    var off := ICX_SLAVE_ADC + ICX_SLAVE_ADC_STEP * (i % 4) + k;
    assert a == ICX_SLAVE_STEP * (i / 4) + off;
    assert 0 <= off < ICX_SLAVE_STEP;
    assert a / ICX_SLAVE_STEP == i / 4 && a % ICX_SLAVE_STEP == off;
    assert (off - ICX_SLAVE_ADC) / ICX_SLAVE_ADC_STEP == i % 4;
    assert (off - ICX_SLAVE_ADC) % ICX_SLAVE_ADC_STEP == k;
  }

  /** Slave Xilinx chosen by an ADC number in ADCRead/ADCWrite: bits 3:2 of `num`. */
  function AdcSlave(num: int): (x: int)
    ensures 0 <= x < 4
  {
    (num / 4) % 4
  }

  /** SPI chip select of an ADC on its slave Xilinx: bit `num & 3` of the SPI CSR. */
  function AdcSelect(num: int): (cs: int)
    ensures cs in {1, 2, 4, 8}
  {
    var n := num % 4;
    if n == 0 then 1 else if n == 1 then 2 else if n == 2 then 4 else 8
  }
}
