/*
 * The hardware a module object drives: the CPLD registers of the A16 window,
 * the registers of the A32 window with its three serial-bus ports, and the
 * DMA engine that copies SDRAM contents of the A64 window.
 *
 * Memory-like registers are plain fields.  A serial-bus port records every
 * store and load in a trace, and the values its loads return come from the
 * hardware, modelled as the sequence `answers` fixed in advance.
 */
module Hardware {
  import opened RegMap
  import opened Script

  /** One register pair (CSR and data, plus the I2C prescaler and control) of a serial-bus master. */
  class SerialPort {
    const bus: Bus
    /** The values the port presents to the next loads, in order; zero once exhausted. */
    var answers: seq<int>
    /** Every store and load made through the port, with the value loaded. */
    ghost var trace: seq<Ev>

    constructor (b: Bus, answers: seq<int>)
      ensures bus == b && this.answers == answers && trace == []
    {
      bus := b;
      this.answers := answers;
      trace := [];
    }

    method Store(r: PortReg, v: int)
      modifies this
      ensures trace == old(trace) + [Ev(PortWr(bus, r, v), 0)]
      ensures answers == old(answers)
    {
      trace := trace + [Ev(PortWr(bus, r, v), 0)];
    }

    method Load(r: PortReg) returns (v: int)
      modifies this
      ensures trace == old(trace) + [Ev(PortRd(bus, r), v)]
      ensures v == (if old(answers) == [] then 0 else old(answers)[0])
      ensures answers == (if old(answers) == [] then [] else old(answers)[1..])
    {
      if answers == [] {
        v := 0;
      } else {
        v := answers[0];
        answers := answers[1..];
      }
      trace := trace + [Ev(PortRd(bus, r), v)];
    }
  }

  /** The A32 register window of one module. */
  class A32Regs {
    var csrOut: bv32      // main CSR (csr.out)
    var trigCsr: bv32     // trigger CSR (trig.csr)
    var trigCnt: int      // soft trigger pulse / trigger counter (trig.cnt)
    var trigGtime: int    // trigger time counter (trig.gtime)
    var fifoCsr: bv32     // SDRAM FIFO CSR (fifo.csr)
    var fifoWin: int      // SDRAM FIFO window (fifo.win)
    var fifoRptr: int     // SDRAM FIFO read pointer (fifo.rptr)
    var fifoWptr: int     // SDRAM FIFO write pointer (fifo.wptr)
    const icx: SerialPort // SPI master towards the slave Xilinxes
    const dac: SerialPort // SPI master towards the offset DAC
    const i2c: SerialPort // I2C master towards the CDCUN clock multiplexer

    constructor (icx: SerialPort, dac: SerialPort, i2c: SerialPort)
      ensures this.icx == icx && this.dac == dac && this.i2c == i2c
      ensures csrOut == 0 && trigCsr == 0 && fifoCsr == 0
      ensures trigCnt == 0 && trigGtime == 0 && fifoWin == 0 && fifoRptr == 0 && fifoWptr == 0
    {
      this.icx, this.dac, this.i2c := icx, dac, i2c;
      csrOut, trigCsr, fifoCsr := 0, 0, 0;
      trigCnt, trigGtime, fifoWin, fifoRptr, fifoWptr := 0, 0, 0, 0, 0;
    }
  }

  /** The CPLD registers of the A16 window of one module. */
  class A16Regs {
    var c2x: int    // geographic address emulation and its parity, in the high byte
    var snum: int   // serial number of the module, in the high byte

    constructor (snum: int)
      ensures this.snum == snum && c2x == 0
    {
      this.snum := snum;
      c2x := 0;
    }
  }

  /** The `len` bytes of `memory` starting at `addr`; bytes the map does not hold read as zero. */
  function Span(memory: map<int, int>, addr: int, len: nat): (s: seq<int>)
    ensures |s| == len
  {
    if len == 0 then []
    else Span(memory, addr, len - 1) + [if addr + len - 1 in memory then memory[addr + len - 1] else 0]
  }

  /** Whether the next DMA transfer succeeds, given the failures still pending. */
  predicate Succeeds(failures: seq<bool>)
  {
    failures == [] || !failures[0]
  }

  /** The A64 DMA engine: copies SDRAM bytes of the module's window into a caller's buffer. */
  class Dma {
    /** SDRAM contents by absolute A64 address. */
    var memory: map<int, int>
    /** Whether each successive transfer fails; transfers succeed once exhausted. */
    var failures: seq<bool>
    /** Every transfer requested, as (address, length). */
    ghost var requests: seq<(int, int)>

    constructor (memory: map<int, int>, failures: seq<bool>)
      ensures this.memory == memory && this.failures == failures && requests == []
    {
      this.memory := memory;
      this.failures := failures;
      requests := [];
    }

    /** One transfer: `ok` is false when the driver reports an error. */
    method Transfer(addr: int, len: nat) returns (ok: bool, data: seq<int>)
      modifies this
      ensures requests == old(requests) + [(addr, len)]
      ensures ok == Succeeds(old(failures))
      ensures failures == (if old(failures) == [] then [] else old(failures)[1..])
      ensures memory == old(memory)
      ensures ok ==> data == Span(memory, addr, len)
    {
      ok := failures == [] || !failures[0];
      if failures != [] {
        failures := failures[1..];
      }
      requests := requests + [(addr, len)];
      data := if ok then Span(memory, addr, len) else [];
    }
  }

  /** The log of bus transactions a module object makes through its primitives. */
  class Journal {
    ghost var tx: seq<Ev>

    constructor ()
      ensures tx == []
    {
      tx := [];
    }
  }
}
