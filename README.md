# uwfd64 — a Dafny model of the UWFD64 digitizer control library

The UWFD64 is a 64-channel VME waveform digitizer. It has a main Xilinx, four
slave Xilinxes and sixteen 4-channel ADCs. Each slave Xilinx has its own
Si5338 clock synthesizer, and a CDCUN clock multiplexer sits on the main board.
The C++ class `uwfd64` controls one module through its A16 CPLD registers, its
A32 register window and its A64 SDRAM window.

This project models that class's core, file by file in the source's own form,
and proves what its routines promise.

- **RegMap** (`regmap.dfy`) holds the constants of `uwfd64.h` and the VME
  windows of a module. It also builds the CSR words that Init, Inhibit,
  SoftTrigger and WriteUserWord write. Bitwise operations on C `int`s are
  written out (`And`, `Or`, `Word`). CSR words are `bv32`.
- **Script** (`script.dfy`) is a small language for bus routines. A routine is
  a sequence of steps: an access or call, a bounded poll, or a return. `Run`
  checks a recorded trace of transactions against a script. Each bus
  routine's contract says that what it did is a run of its script, returning
  the value the routine returns.
- **Protocols** (`protocols.dfy`) holds the scripts of the serial-bus
  primitives:
  - ICXRead and ICXWrite: the SPI link to the slave Xilinxes.
  - DACSet.
  - I2CRead and I2CWrite: the CDCUN.
  - L2CRead, L2CWrite, L2CBlkRead and L2CBlkWrite: the Si5338 behind a slave.
  - ADCRead, ADCWrite, GetADCID and ADCCheckSeq.
- **Endings** (`endings.dfy`) proves how each of those routines leaves its bus,
  on every path, and which failure each error code stands for:
  - the SPI routines deselect the slave as their last access;
  - the CDCUN routines end with a STOP after a timeout;
  - the Si5338 routines send a STOP after a failed write, a missing
    acknowledge or a timeout;
  - the ADC routines deselect the ADC.
- **Hardware** (`hardware.dfy`) is the hardware as the library sees it:
  - serial ports whose reads return the next value the hardware answers;
  - the A32 and A16 register files;
  - a DMA engine over the module's SDRAM;
  - a journal of the bus transactions made.
- **Uwfd64** (`uwfd64.dfy`), class `Module`, is the `uwfd64` object. It holds:
  - the constructor, with its geographic-address parity;
  - ReadConfig and IsHere;
  - every register-level primitive;
  - Inhibit, EnableFifo, Reset, ResetFifo, SoftTrigger and WriteUserWord;
  - GetFromFifo and TestFifo.
- **Config** (`config.dfy`) covers the configuration structure and ReadConfig's
  two passes over a configuration file, the default section and then the
  module's own. It also holds the C2X word and the parity the constructor
  writes.
- **Fifo** (`fifo.dfy`) covers the SDRAM FIFO:
  - the window register;
  - the chunk GetFromFifo and TestFifo read around the ring;
  - the block-framing scan TestFifo makes over the words it reads.
- **Blocks** (`blocks.dfy`) models `analyse`, the check of one readout in the
  channel test. It walks the blocks, judges each block, sign-extends the
  samples in place and counts the channels that are missing.
- **Si5338** (`si5338.dfy`) models ConfigureSlaveClock. It parses the
  ClockBuilder register file, programs the chip with read-back, and runs the
  lock and calibration sequence. The chip is abstract: registers, successive
  status values and failing transfers.
- **Setup** (`setup.dfy`), class `Board`, holds the routines built on the
  primitives: ConfigureMasterClock, ConfigureSlaveXilinx, ADCAdjust and Init.
  - Each primitive they call is one logged call. What it returns is the next
    answer of the environment.
  - The configuration routines count failures and go on.
  - ADCAdjust returns at the first failure, with a code that names the step
    and the ADC.

## Model

| member | source | states |
|---|---|---|
| RegMap.WindowsDisjoint | uwfd64.h:660-662 | distinct serial numbers and slots give disjoint A16, A32 and A64 windows; each window fits its address space; the SDRAM fits its window |
| RegMap.HighByteOf | uwfd64.cpp:821-827 | the serial number in the CPLD register's high byte is read back whatever the low byte holds |
| RegMap.MainCsrWord | uwfd64.cpp:745-747 | the trigger, inhibit and clock mux fields, the AUX and token bits and the user word each read back from the main CSR word; the reserved bits and RESET are clear |
| RegMap.WithUserWord | uwfd64.cpp:1948-1955 | the user word field gets the low 15 bits of `num`; every other bit is kept |
| RegMap.TrigCsrMasksOverlap | uwfd64.h:163-168 | the OR-time mask and the block-time mask share bits 7-10 |
| RegMap.TrigCsrOrTimeLeaksIntoBlockTime | uwfd64.cpp:750-752 | with the masks as written, an OR time of 8 changes the block-time field Init writes |
| RegMap.TrigCsrWord | uwfd64.cpp:750-752 | the channel, 3-bit OR time and block time each read back from the trigger CSR word; the soft-trigger field is clear |
| RegMap.WithSoftPeriod | uwfd64.cpp:1262-1272 | the soft-trigger field gets the low 13 bits of `freq`; every other bit is kept |
| RegMap.AdcAddressDecodes | uwfd64.h:358-399 | an ICX address in the receiver block of ADC `i` decodes back to `i` and the register, on slave `i / 4` |
| RegMap.AdcSlave | uwfd64.cpp:44-61 | the slave Xilinx an ADC number selects is one of the four |
| RegMap.AdcSelect | uwfd64.cpp:44-61 | the SPI chip select of an ADC is one of the four single bits |
| Protocols.AddressBytes | uwfd64.cpp:670-719 | the two address bytes of an ICX frame carry the 15-bit address, with the direction bit set only for a read |
| Protocols.DataBytes | uwfd64.cpp:699-719 | the two data bytes of an ICX write carry the low 16 bits of the value |
| Protocols.PairRuns | uwfd64.cpp:551-559 | two ADC reads, the second made only when the first succeeds, make the GetADCID routine returning `(id << 8) + grade` or the first negative code |
| Config.DevSectionNames | uwfd64.cpp:1035-1040 | the module's own section name spells its serial number and is never "Def"; below 1000 it has six characters |
| Config.CRem | uwfd64.cpp:1068 | C `%` truncates toward zero: the remainder has the sign of the dividend and is smaller than the divisor |
| Config.Short | uwfd64.cpp:1025-1236 | truncation to `short` lands in range and agrees modulo 2^16 |
| Config.ReadSection | uwfd64.cpp:1025-1236 | one pass over a section keeps a configuration in range |
| Config.Configured | uwfd64.cpp:1025-1236 | ReadConfig's two passes keep a configuration in range |
| Config.DeviceOverridesDefault | uwfd64.cpp:1025-1236 | an integer setting ends as the module's own value, else the default section's, else its old value, each cut to the field's width |
| Config.ListSetting | uwfd64.cpp:1025-1236 | a list setting present in the file yields exactly the number of elements the field holds; an absent one keeps the field |
| Config.InitialInRange | uwfd64.cpp:28-30 | the configuration a new object starts with is in range |
| Config.GaParity | uwfd64.cpp:33-35 | the parity bit makes the five address bits plus parity odd |
| Config.C2xFields | uwfd64.cpp:36 | the C2X word reads back the geographic address, its parity bit and RESET in separate fields |
| Fifo.BoundsAsWritten | uwfd64.cpp:576-578 | the FIFO bounds computed with the source's masks and shifts are the two halves of the window register in 8 kB blocks |
| Fifo.WindowRoundTrip | uwfd64.cpp:755-756 | decoding the window Init packs gives back its first and last block, modulo 2^16 |
| Fifo.ChunkOf | uwfd64.cpp:581-585 | the chunk length computed step by step is the specified chunk, refused exactly when the ring count is negative |
| Fifo.ChunkStaysInRing | uwfd64.cpp:581-590 | with both pointers in the area, a chunk is never refused; it stays within `size`, the area's top and the data written; the read pointer stays in the area |
| Fifo.ScanWords | uwfd64.cpp:1738-1758 | TestFifo's word loop computes the framing scan of the words |
| Fifo.ScanConcat | uwfd64.cpp:1738-1758 | scanning a stream in two pieces, the state carried over, is scanning it whole |
| Fifo.WellFormedStreamScansClean | uwfd64.cpp:1738-1758 | a stream of well-formed blocks scans with no error, counts every block and owes nothing |
| Fifo.ScanDelivered | uwfd64.cpp:1708-1781 | scanning later readouts continues the scan of the earlier ones |
| Hardware.Dma.Transfer | uwfd64.cpp:587 | a DMA read records the request; when it succeeds it returns the SDRAM bytes at that address |
| Blocks.FieldsAsWritten | uwfd64.cpp:1385-1386 | the channel, block type and token fields equal the source's mask-and-shift forms |
| Blocks.Judge | uwfd64.cpp:1385-1442 | self-trigger test: a block passes exactly when its type is 0, and then counts its channel. Master trigger: a wrong token is an error, but the block is still counted. A wrong length for its type, or an unknown type, is an error and counts nothing. A type-1 block of `blklen` counts its channel. A type-4 block of `blklen` counts history slot 64 + channel/16. A type-2 block of length 7 counts trigger slot 68. Each of these passes exactly when the token is right; a type-2 block also needs its trigger source to be right |
| Blocks.Extended | uwfd64.cpp:1393 | sign extension keeps bits 14:0 and makes a 15-bit sample read as the same signed value |
| Blocks.ExtendedTwice | uwfd64.cpp:1393 | sign extension is idempotent |
| Blocks.ExtendSigns | uwfd64.cpp:1393 | the loop sign-extends exactly the samples of the block and nothing else |
| Blocks.Step | uwfd64.cpp:1377-1448 | each step advances, keeps the buffer's length and only adds errors |
| Blocks.StepBlock | uwfd64.cpp:1377-1448 | the step over a block that fits judges it and skips past its last word |
| Blocks.WalkOnlyExtends | uwfd64.cpp:1377-1448 | the walk changes a word only by sign-extending it |
| Blocks.MissingIsCount | uwfd64.cpp:1449-1461 | the missing-channel count is the number of channels seen never or more than once |
| Blocks.CountMissing | uwfd64.cpp:1449-1461 | the counting loop computes that count |
| Blocks.Analyse | uwfd64.cpp:1367-1473 | analyse returns the walk's errors plus the missing channels, leaves the walked words sign-extended and does not touch the words past `len` |
| Blocks.WalkAsWritten | uwfd64.cpp:1377-1448 | the walk as written, with no check that a block fits |
| Blocks.StepAsWritten | uwfd64.cpp:1377-1448 | the step as written takes a block whole whatever its length |
| Blocks.TruncatedBlock | uwfd64.cpp:1377-1448 | a one-word buffer 0x8001: the as-written verdict depends on the word past the buffer; the corrected walk counts one error |
| Blocks.SameFraming | uwfd64.cpp:1379-1380 | analyse frames words as the FIFO scan does |
| Si5338.TokenAfter | uwfd64.cpp:364-366 | strtok hands out the maximal runs of non-delimiters in order |
| Si5338.StrtolDecimal | uwfd64.cpp:369 | strtol reads a decimal numeral back, whatever text follows |
| Si5338.StrtolHex | uwfd64.cpp:396-400 | strtol reads a "0x" hexadecimal numeral back |
| Si5338.HeaderAt | uwfd64.cpp:360-363 | the header is the first line starting with '#' |
| Si5338.ParseEntryAccepts | uwfd64.cpp:388-400 | a '{' line is accepted exactly when it has three tokens starting with digits and a register number of at most 511 |
| Si5338.EntriesStop | uwfd64.cpp:389-399 | a malformed '{' line ends the programming: nothing after it is programmed |
| Si5338.FileRoundTrip | uwfd64.cpp:360-423 | a file written in ClockBuilder's format reads back as the count and the entries it lists |
| Si5338.Merged | uwfd64.cpp:412-417 | the read-modify-write stores the bits under the mask from the value and the others from the byte read |
| Si5338.WriteThenRead | uwfd64.cpp:419-421 | a byte written to a register other than the status register reads back |
| Si5338.SoundEntry | uwfd64.cpp:404-421 | on a chip whose transfers succeed, an entry counts no error and sets its register under its mask, leaving the other registers alone |
| Si5338.ProgramCounts | uwfd64.cpp:383-423 | the loop programs exactly the file's entries and only adds errors |
| Si5338.SoundProgram | uwfd64.cpp:383-423 | on a chip whose transfers succeed, distinct entries are all programmed with no error |
| Si5338.PreparedOps | uwfd64.cpp:374-378 | the preparation disables the outputs and pauses loss-of-lock detection; each failed write is an error |
| Si5338.SoundPoll | uwfd64.cpp:430-434 | the status poll succeeds exactly when one of its reads shows the bits clear |
| Si5338.PollKeeps | uwfd64.cpp:430-434 | a poll on a sound chip leaves it sound |
| Si5338.RelockedOf | uwfd64.cpp:436-442 | the relock clears the override bit and turns loss-of-lock detection back on |
| Si5338.FcalCopiedOf | uwfd64.cpp:450-455 | the calibration results are copied to the override registers |
| Si5338.OverriddenOf | uwfd64.cpp:457-461 | the override bit is set and the outputs are enabled |
| Si5338.Load | uwfd64.cpp:342-464 | the return codes: -10 exactly when no file, -20 exactly for a count outside 1..511 (chip untouched), -30 exactly for a count mismatch once the count is in 1..511, -40/-50 for clock or lock timeouts, else the errors counted |
| Si5338.SoundLoad | uwfd64.cpp:342-464 | a well-formed file of distinct registers, none of them the status register, on a working chip with a clear status returns 0, leaves the outputs enabled and every listed register that the closing sequence does not write set under its mask |
| Si5338.SlaveClock.L2CRead | uwfd64.cpp:916-945 | reads one register of the chip, or -10 |
| Si5338.SlaveClock.L2CWrite | uwfd64.cpp:952-976 | writes one register of the chip, 0 or -10 |
| Si5338.ScanHeader | uwfd64.cpp:360-372 | the header scan returns the announced count and where the entries begin |
| Si5338.ProgramLines | uwfd64.cpp:383-423 | the programming loop does what ProgramFrom specifies |
| Si5338.WaitStatus | uwfd64.cpp:430-434 | the wait loop is the status poll |
| Si5338.ConfigureSlaveClock | uwfd64.cpp:342-464 | the loader returns Load's code and leaves the chip as Load specifies |
| Uwfd64.Module.constructor | uwfd64.cpp:19-37 | the configuration starts in range (read from the file when there is one) and C2X gets the address, its parity and RESET |
| Uwfd64.Module.ParityOf | uwfd64.cpp:33-35 | the counting loop gives the parity bit that makes the address bits plus parity odd |
| Uwfd64.Module.ReadConfig | uwfd64.cpp:1025-1236 | the configuration becomes the two-pass result and stays in range |
| Uwfd64.Module.IsHere | uwfd64.cpp:821-827 | true exactly when the CPLD's high byte is the serial number |
| Uwfd64.Module.ICXWrite | uwfd64.cpp:699-719 | the SPI traffic is a run of the ICX write script. Its last access deselects the slave on every path. It returns 0, or -10 exactly when BUSY read set SPI_TIMEOUT times in a row |
| Uwfd64.Module.ICXRead | uwfd64.cpp:670-694 | the SPI traffic is a run of the ICX read script. Its last access deselects the slave on every path. It returns a 16-bit value, or -10 exactly when BUSY read set SPI_TIMEOUT times in a row |
| Uwfd64.Module.DACSet | uwfd64.cpp:521-534 | the DAC traffic is a run of the DAC script. Its last access deselects the DAC on every path. It returns 0, or -10 exactly when BUSY read set SPI_TIMEOUT times in a row |
| Uwfd64.Module.I2CRead | uwfd64.cpp:598-632 | the I2C traffic is a run of the CDCUN read script. -10 exactly when TIP read set I2C_TIMEOUT times in a row; a STOP is then the last access. Otherwise the last command is READ with STOP and ACK, and the result is a 16-bit value |
| Uwfd64.Module.I2CWrite | uwfd64.cpp:637-665 | the I2C traffic is a run of the CDCUN write script. -10 exactly when TIP read set I2C_TIMEOUT times in a row; a STOP is then the last access. Otherwise 0, with WRITE and STOP as the last command |
| Uwfd64.Module.L2CRead | uwfd64.cpp:916-945 | the ICX calls are a run of the Si5338 read script. After a failed write, a missing acknowledge or a timeout, the STOP is the last access and it returns -10. Otherwise every write went through, the last command is READ with STOP and ACK, and it returns what the last access, the data read, returned |
| Uwfd64.Module.L2CWrite | uwfd64.cpp:952-976 | the ICX calls are a run of the Si5338 write script. 0 or -10; -10 exactly when the last access is the STOP sent after a failure. Otherwise every write went through and WRITE with STOP is the last command |
| Uwfd64.Module.L2CBlkRead | uwfd64.cpp:836-871 | the routine as intended (see Findings): no bus traffic and 0 for a block of no bytes. Otherwise the ICX calls are a run of the block-read script, with -10 exactly when the STOP sent after a failure is the last access, and READ, STOP and ACK as the last command on success. On success `buf` holds the bytes read, truncated to `char`; nothing past `len` changes |
| Uwfd64.Module.L2CBlkWrite | uwfd64.cpp:880-909 | the routine as intended (see Findings): no bus traffic and 0 for no bytes. Otherwise the ICX calls are a run of the block-write script, with -10 exactly when the STOP sent after a failure is the last access, and WRITE with STOP as the last command on success |
| Uwfd64.Module.ADCRead | uwfd64.cpp:44-61 | the ICX calls are a run of the ADC read script. Its last write deselects the ADC. After a failed write it deselects at once and returns -1. Otherwise it returns what the read of the SPI data register returned |
| Uwfd64.Module.ADCWrite | uwfd64.cpp:69-83 | the ICX calls are a run of the ADC write script. Its last write deselects the ADC. It returns -1 exactly when an ICX write failed, else 0 |
| Uwfd64.Module.GetADCID | uwfd64.cpp:551-559 | the ID and grade reads, or the first failure |
| Uwfd64.Module.ADCCheckSeq | uwfd64.cpp:90-114 | starts, then waits for, the check on each selected slave. -1 comes right after a failed write or status read. -2 comes right after 2^(2(time+1)) status reads that all found the check still running. 0 only when every write went through |
| Endings.IcxWriteCloses | uwfd64.cpp:699-719 | ICXWrite deselects on every path; 0, or -10 exactly when an SPI wait ran out |
| Endings.IcxReadCloses | uwfd64.cpp:670-694 | ICXRead deselects on every path; a 16-bit value, or -10 exactly when an SPI wait ran out |
| Endings.DacCloses | uwfd64.cpp:521-534 | DACSet deselects on every path; 0, or -10 exactly when an SPI wait ran out |
| Endings.I2cReadCloses | uwfd64.cpp:598-632 | I2CRead: -10 exactly when a wait ran out and a STOP followed as the last access; otherwise READ, STOP and ACK is the last command |
| Endings.I2cWriteCloses | uwfd64.cpp:637-665 | I2CWrite: -10 exactly when a wait ran out and a STOP followed as the last access; otherwise 0 with WRITE and STOP the last command |
| Endings.L2cReadCloses | uwfd64.cpp:916-945 | L2CRead: a STOP as the last access follows a failed write, a missing acknowledge or a timeout, and gives -10; otherwise READ, STOP and ACK is the last command and the data read is returned |
| Endings.L2cWriteCloses | uwfd64.cpp:952-976 | L2CWrite: -10 exactly when the last access is the STOP after a failure; otherwise 0 with WRITE and STOP the last command |
| Endings.L2cBlkReadCloses | uwfd64.cpp:836-871 | L2CBlkRead of at least one byte: -10 exactly when the last access is the STOP after a failure; otherwise 0 with READ, STOP and ACK the last command |
| Endings.L2cBlkReadLeavesOpen | uwfd64.cpp:853-870 | L2CBlkRead as written, for `len` <= 0: on success the last command is the START of the read, and no STOP follows |
| Endings.L2cBlkReadFixedCloses | uwfd64.cpp:836-871 | L2CBlkRead as intended: no traffic and 0 for no bytes; otherwise it ends as L2cBlkReadCloses says |
| Endings.L2cBlkWriteCloses | uwfd64.cpp:880-909 | L2CBlkWrite of at least one byte: -10 exactly when the last access is the STOP after a failure; otherwise 0 with WRITE and STOP the last command |
| Endings.L2cBlkWriteLeavesOpen | uwfd64.cpp:893-908 | L2CBlkWrite as written, for no bytes: on success the last command is the register address's WRITE, and no STOP follows |
| Endings.L2cBlkWriteFixedCloses | uwfd64.cpp:880-909 | L2CBlkWrite as intended: no traffic and 0 for no bytes; otherwise it ends as L2cBlkWriteCloses says |
| Endings.AdcReadCloses | uwfd64.cpp:44-61 | ADCRead: the last write deselects the ADC; after a failed write it deselects at once and returns -1; otherwise the SPI data read is the last access and its value is returned |
| Endings.AdcWriteCloses | uwfd64.cpp:69-83 | ADCWrite: the last write deselects the ADC; -1 exactly when an ICX write failed, else 0 |
| Endings.CheckSeqCloses | uwfd64.cpp:90-114 | ADCCheckSeq: -1 right after a failed write or status read; -2 right after 2^(2(time+1)) status reads that found the check still running; 0 only when every write went through |
| Uwfd64.Module.Inhibit | uwfd64.cpp:723-728 | the inhibit bit is set exactly when `what` is non-zero; every other bit is kept |
| Uwfd64.Module.EnableFifo | uwfd64.cpp:538-545 | the enable bit is set exactly when `what` is non-zero; every other bit is kept |
| Uwfd64.Module.Reset | uwfd64.cpp:1240-1244 | the reset bit ends clear; every other bit of the main CSR is kept |
| Uwfd64.Module.ResetFifo | uwfd64.cpp:1250-1254 | only the hard and soft reset bits that `mask` selects are set; no bit is cleared |
| Uwfd64.Module.SoftTrigger | uwfd64.cpp:1262-1272 | a negative `freq` fires one pulse through the counter; otherwise `freq` becomes the soft-trigger period |
| Uwfd64.Module.WriteUserWord | uwfd64.cpp:1948-1955 | the main CSR gets the new user word and keeps its other bits |
| Uwfd64.Module.GetFromFifo | uwfd64.cpp:566-593 | 0 when empty, -1 on inconsistent pointers, -2 on a failed DMA (all with the read pointer kept); else the chunk's bytes land in `buf` and the read pointer advances around the ring |
| Uwfd64.Module.OpenFifo | uwfd64.cpp:1694-1706 | the FIFO is reset and disabled, then enabled when the window is not empty; the area bounds are returned |
| Uwfd64.Module.TestFifo | uwfd64.cpp:1681-1785 | -1 exactly for an empty area (malloc failure is not modelled); otherwise the framing errors over the words read and whether `cnt` blocks were seen; with pointers in the area every chunk stays in it and -3 never occurs |
| Setup.TallyBounds | uwfd64.cpp:758-795 | a counted sequence of calls counts at most one error per call and only appends to the log |
| Setup.TallyClean | uwfd64.cpp:758-795 | no error is counted exactly when every call answers well; the calls are then made in order |
| Setup.TallyAppend | uwfd64.cpp:758-795 | counting two sequences in turn adds their counts |
| Setup.RunClean | uwfd64.cpp:122-291 | ADCAdjust's run succeeds exactly when every call answers well, and then it has made every call |
| Setup.RunStops | uwfd64.cpp:122-291 | a failed run stopped at its first failing call and returned that step's code |
| Setup.RunPrefix | uwfd64.cpp:122-291 | a run has always made a prefix of its calls, and all of them when it returns 0 |
| Setup.XilMaskBits | uwfd64.cpp:131-132 | bit `x` of the Xilinx mask is set exactly when one of Xilinx `x`'s ADCs is selected |
| Setup.AdjustProper | uwfd64.cpp:122-291 | every call ADCAdjust makes concerns a selected ADC or its Xilinx, and each failure code names it |
| Setup.AdjustResult | uwfd64.cpp:122-291 | an error ADCAdjust returns names the failing step and a selected ADC, or is an ADCCheckSeq result |
| Setup.AdjustSetsDelay | uwfd64.cpp:207-215 | after a successful ADCAdjust every selected receiver is exactly the configured IODELAY steps after its reset |
| Setup.DelayTaps | uwfd64.cpp:207-215 | the delay pass leaves each selected receiver at the configured setting |
| Setup.InputWordFields | uwfd64.cpp:299-326 | the CDCUN input word carries the divider and the input selection |
| Setup.MasterClockClean | uwfd64.cpp:299-326 | ConfigureMasterClock counts no error exactly when every write succeeds and every register reads back as written (control register 0) |
| Setup.XilinxWrites | uwfd64.cpp:471-516 | ConfigureSlaveXilinx writes 32 distinct registers of its Xilinx once each; coefficient `i` goes to COEF+`i`; trigger history follows TrigHistMask |
| Setup.XilinxCalls | uwfd64.cpp:471-516 | every call is a counted write to the Xilinx being configured |
| Setup.ClockSelectAsWritten | uwfd64.cpp:742 | the CDCUN input as Init selects it, from MasterClockDiv & 4 |
| Setup.ClockSelectAsWrittenIsIn1 | uwfd64.cpp:742 | for every configuration ReadConfig can produce, Init as written selects IN1 |
| Setup.ClockSelectMissesIn2 | uwfd64.h:84-88 | clock mode 4 needs IN2, which Init as written never selects |
| Setup.ClockSelect | uwfd64.h:84-88 | the CDCUN input as the clock modes require it |
| Setup.ClockSelectFollowsMux | uwfd64.h:84-88 | the corrected selection is IN2 exactly for clock modes 4-7 |
| Setup.PlainTally | uwfd64.cpp:758-795 | counted calls are all made, one log entry each, whatever they return; the count is the number that failed |
| Setup.AdcWritesTally | uwfd64.cpp:763-766 | each loop over the ADCs writes ADC 0 to 15 in turn, whatever the earlier writes returned; each failed write counts one error |
| Setup.SlaveXilinxesOwn | uwfd64.cpp:801 | configuring the slave Xilinxes writes only their own registers |
| Setup.InitClean | uwfd64.cpp:732-803 | Init reports no error exactly when every part succeeds; it has then made all their calls, in order |
| Setup.InitZero | uwfd64.cpp:732-803 | Init counts no error only when none of its parts fails |
| Setup.InitSetsDelay | uwfd64.cpp:797-801 | when Init reports no error every ADC receiver holds the configured IODelay; the slave configuration after it does not disturb it |
| Setup.RunStays | uwfd64.cpp:122-291 | once a run has failed, later calls are not made |
| Setup.Board.Counted | uwfd64.cpp:758-795 | the counted calls make the log and the count that Tally specifies |
| Setup.Board.Guarded | uwfd64.cpp:122-291 | the guarded calls return at the first failure, as Run specifies |
| Setup.Board.ConfigureMasterClock | uwfd64.cpp:299-326 | programs and verifies the CDCUN as MasterTicks specifies |
| Setup.Board.ConfigureSlaveXilinx | uwfd64.cpp:471-516 | writes the trigger set-up of one slave Xilinx as XilinxTicks specifies |
| Setup.Board.ADCAdjust | uwfd64.cpp:122-291 | the adjustment returns the run of AdjustOps over the selected ADCs |
| Setup.Board.WriteMainCsr | uwfd64.cpp:745-748 | the main CSR ends holding the word written, after the reset pulse |
| Setup.Board.SetRegisters | uwfd64.cpp:745-756 | the main CSR, trigger CSR, gate time and FIFO window hold the configured words. The trigger CSR is the corrected RegMap.TrigCsrWord, whose OR-time mask is 0x70, not the source's 0x7F0 (see Findings) |
| Setup.Board.SetUpMainI2c | uwfd64.cpp:739-741 | the main I2C master gets its prescaler and core enable |
| Setup.Board.ConfigureSlaveXilinxes | uwfd64.cpp:801 | the four slave Xilinxes are configured in turn and their errors added |
| Setup.Board.Init | uwfd64.cpp:732-803 | Init's error count and call log are those of its two halves; the main-board registers are programmed and the I2C master is set up. The CDCUN input is the corrected Setup.ClockSelect, bit 2 of MasterClockMux, not the source's `MasterClockDiv & 4` at uwfd64.cpp:742 (see Findings) |

## Left out

- Floating point: the slope, intercept and chi² fits, and the scaling of TrigCoef. Coefficients are taken as the words written.
- printf and usleep are not modelled. ADCAdjust's adcmask bit 16 only selects printed output, so the model has no display mode.
- Hardware answers are oracles:
  - serial-port reads return the next value of a fixed sequence;
  - Setup's calls return the next value of `env`;
  - the Si5338 status and failures are feeds;
  - TestFifo's status and write pointer come from `status`.
- Setup models ConfigureMasterClock, ConfigureSlaveXilinx, ADCAdjust and Init one level above the buses: each primitive is one call with an answer. The primitives themselves are modelled at register level in Uwfd64.Module.
- Si5338.ConfigureSlaveClock: the file is a sequence of lines. fopen/fgets I/O and fgets' 1024-byte line limit are not modelled.
- Si5338.ConfigureSlaveClock: the chip is reached through an abstract L2CRead/L2CWrite. Their bus scripts are modelled separately by Uwfd64.Module.L2CRead and Uwfd64.Module.L2CWrite.
- Uwfd64.Module.TestFifo: the source's loop may poll forever. The model stops when `status` runs out and says so with `finished`. The debug CSR dumps and the printouts are not modelled.
- Uwfd64.Module.TestFifo: the source returns -1 when malloc fails (uwfd64.cpp:1689-1690). The model has no allocation failure, so its -1 means only an empty area.
- Uwfd64.Module.ScanChunk: the source re-reads a chunk with errors by vmemap_a64_blkread (uwfd64.cpp:1767), a programmed block read. The model makes that re-read through the same DMA transfer as the first read. Only whether it fails (-4) matters; the data re-read is only printed.
- Si5338: the Device keys registers 256-511 directly by their number. On the chip they are reached through the page selected in register 255; the model writes register 255 like any other and does not model the paging.
- Fifo.Clip: a read pointer above the area's top gives a negative chunk length; the source hands it to vmemap_a64_dma, which takes it as an unsigned 32-bit count, while the model asks the DMA for 0 bytes.
- The DMA is an abstract transfer over a byte map. libvmemap and the kernel driver are not part of this model.
- Prog, IsDone, TestADCPhase, TestADCReg, TestAllChannels, the random/SDRAM/register tests, ZeroTrigger and the command-line tool are outside the core.
- Setup.Board.Init: the ADC mask Init passes to ADCAdjust (all 16 ADCs) is the field `adjustMask`.
- Uwfd64.Module.Reset: states the net effect of the set-then-clear pulse only, not the intermediate write.
- 32-bit `int` overflow is not modelled: integers are unbounded except where the source masks or truncates.

## Findings

| source | as written | input that shows it | evidently intended | confidence | as-written member | corrected member |
|---|---|---|---|---|---|---|
| uwfd64.cpp:742 | Init selects CDCUN input IN2 when `MasterClockDiv & 4`; ReadConfig masks MasterClockDiv with 3, so IN2 is never selected | MasterClockMux = 4 (clock mode 4), any MasterClockDiv | select IN2 for clock modes 4-7 (`MasterClockMux & 4`), as uwfd64.h:84-88 says | not executed | Setup.ClockSelectAsWrittenIsIn1 | Setup.ClockSelectFollowsMux |
| uwfd64.h:166 | TRIG_CSR_SRCOR_MASK is 0x7F0 and overlaps TRIG_CSR_BLOCK_MASK 0xFF80 in bits 7-10 | OR time 8 in the trigger CSR Init writes: the block-time field reads 1 instead of 0 | a 3-bit OR-time field, mask 0x70 | not executed | RegMap.TrigCsrOrTimeLeaksIntoBlockTime | RegMap.TrigCsrWord |
| uwfd64.cpp:1377-1448 | analyse does not check that a block fits in `len`: it reads the word after the last and sign-extends past the buffer | one word 0x8001 (a control word announcing one more word) in a self-trigger test | a block running past `len` is an error and ends the walk | not executed | Blocks.TruncatedBlock | Blocks.Analyse |
| uwfd64.cpp:853-870 | L2CBlkRead sends the STOP with the last byte it reads; with `len` <= 0 the loop never runs and the read transaction is left open, with no STOP | `len` = 0: the last command is the START+WRITE that sends the chip address with the read bit, and the routine returns 0 | a block of no bytes does not touch the bus | not executed | Endings.L2cBlkReadLeavesOpen | Endings.L2cBlkReadFixedCloses |
| uwfd64.cpp:893-908 | L2CBlkWrite sends the STOP with the last byte it writes; with `len` <= 0 the loop never runs and the transaction is left open, with no STOP | `len` = 0: the last command is the WRITE of the register address, and the routine returns 0 | a block of no bytes does not touch the bus | not executed | Endings.L2cBlkWriteLeavesOpen | Endings.L2cBlkWriteFixedCloses |
