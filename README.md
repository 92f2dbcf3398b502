# An 8-bit teaching computer, modelled in Dafny

The modelled system is an 8-bit computer built bottom-up from single-bit logic
gates:

- Gates feed adders, multiplexers, decoders and encoders.
- Latches and flip-flops make up registers, counters and a 256-byte RAM.
- The ALU has Z/C/N/V flags.
- There is a 16-bit instruction set with three formats and two instruction
  decoders.
- A four-state control unit drives a data path.
- A CPU runs a fetch-decode-execute loop with HALT and a cycle budget.
- A two-pass assembler and a loader turn source text into memory contents.

A byte is a list of eight 0/1 ints, least significant bit first. An
instruction word is sixteen such bits. Here every bit list is a `seq<int>`,
and `Bits.Val` is its unsigned value (the package's `bits_to_int`). The
arithmetic operations (adders, ALUs, counters, encoders and decoders) are
proved against integer arithmetic on `Val`.

The repository has two trees. `src/computer/` is the package the tests import;
several of its modules are exercise stubs. `solutions/` is the complete
reference code. The model covers:

- the implemented `src/` modules: gates, adders, bit helpers, ALU, registers,
  counters and decoder;
- every `solutions/` module.

Where the two trees differ, both are modelled as written:

| behaviour | `src/` | `solutions/` |
|---|---|---|
| subtractor overflow | `Adders` | `RefAdders` |
| ALU | `Alu` | `RefAlu` |
| instruction decoder | `Decoder` | `RefDecoder` |

The form of each part follows its source:

- **Pure code is functions and lemmas.** This covers gates, adders,
  combinational circuits, the ALUs, the ISA and the decoders.
- **Objects that update their fields are classes.** Each method's `ensures`
  gives the new state as a function of the old one. This covers latches,
  flip-flops, registers, counters, RAM, clock, control unit, data path, CPU,
  assembler and computer.
- **Loops stay loops, each with its invariants.** This covers the ripple adder,
  RAM loading, the assembler passes, `run` and the loaders.

Each class method is specified by a pure function. The properties the source
promises are proved about that function.

The CPU is modelled as written: its control unit never leaves FETCH, so
execute moves no data. For this reason `Cpu` also defines `IntendedStep`, the
step the instruction set describes, and proves its properties. The
"Findings" section lists each such divergence with both halves.

## Model

| member | source | states |
|---|---|---|
| Gates.GatesOutputBits | src/computer/gates.py:18-191 | every gate returns 0 or 1 whatever ints it receives |
| Gates.TruthTables | src/computer/gates.py:36-84 | on bits NOT is 1 − a, AND is a·b, OR is a + b − a·b |
| Gates.NonBitInputs | src/computer/gates.py:36-84 | a non-bit input acts as 0 in AND and OR, and NOT sends it to 0 |
| Gates.NotInvolution | src/computer/gates.py:36 | NOT(NOT a) = a exactly when a is a bit |
| Gates.Commutative | solutions/gates.py:9-42 | AND, OR, NAND, NOR, XOR and XNOR are commutative on all ints |
| Gates.DeMorgan | src/computer/gates.py:111-138 | NAND(a,b) = OR(¬a,¬b) and NOR(a,b) = AND(¬a,¬b) on bits |
| Gates.XorDiffers | solutions/gates.py:36-41 | XOR is 1 iff the bits differ, XNOR is 1 iff they are equal |
| Adders.HalfAdderSum | src/computer/adders.py:20-48 | sum + 2·carry = a + b, both outputs bits |
| Adders.FullAdderSum | src/computer/adders.py:51-90 | sum + 2·cout = a + b + cin, both outputs bits |
| Adders.RippleValue | src/computer/adders.py:93-120 | the n-bit ripple chain satisfies Val(result) + 2ⁿ·carry = Val(a) + Val(b) + cin |
| Adders.RippleCarryAdder8 | src/computer/adders.py:115-120 | the loop computes the ripple chain, so Val(result) + 256·carry = Val(a) + Val(b) + cin |
| Adders.RippleCommutative | src/computer/adders.py:93-120 | swapping a and b gives the same result and carry |
| Adders.RippleMod | src/computer/adders.py:93-120 | result = (a + b + cin) mod 2ⁿ, and carry is 1 iff the sum reaches 2ⁿ |
| Adders.Add8Value | src/computer/adders.py:93-120 | the 8-bit adder gives (a + b + cin) mod 256 and a carry iff the sum is at least 256 |
| Adders.AddWrapExample | src/computer/adders.py:93-120 | 255 + 1 gives eight zeros and carry 1 |
| Adders.InvertValue | src/computer/adders.py:148-149 | bit-wise NOT of an n-bit list has value 2ⁿ − 1 − Val |
| Adders.InvertInvolution | src/computer/adders.py:148-149 | inverting twice gives the list back |
| Adders.SubtractValue | src/computer/adders.py:123-153 | a + ¬b + 1 is (a − b) mod 256, with carry out 0 iff a < b |
| Adders.Subtractor8Value | src/computer/adders.py:123-153 | subtractor_8bit gives (a − b) mod 256 and borrow 1 iff a < b |
| Adders.Subtractor8OverflowFormula | src/computer/adders.py:156-157 | the overflow bit is 1 iff a and b share a sign bit that the result lacks |
| Adders.Subtractor8OverflowCounterexample | src/computer/adders.py:156-157 | 0 − 1 gives −1, which fits, yet the overflow bit is 1 |
| Adders.TwosComplementValue | src/computer/adders.py:161-178 | twos_complement has value (256 − v) mod 256 |
| Adders.TwosComplementInvolution | src/computer/adders.py:161-178 | negating twice gives the byte back |
| RefAdders.Subtractor8Spec | solutions/adders.py:41-58 | the difference and borrow are as in src; V is 1 iff the signed a − b leaves [−128, 127]; when V = 0 the signed result is a − b |
| RefAdders.Subtractor8ZeroMinusOne | solutions/adders.py:56 | 0 − 1 gives −1 with borrow 1 and V = 0 |
| RefAdders.SubtractorsAgreeOnDifference | solutions/adders.py:41-58 | both subtractors agree on the result and the borrow |
| Bits.IntToBits | src/computer/__init__.py:16-37 | int_to_bits(v, n) has n bits and value v mod 2ⁿ, negative v included |
| Bits.UnsignedRoundTrip | src/computer/__init__.py:31-54 | bits_to_int(int_to_bits(v, n)) = v mod 2ⁿ |
| Bits.SignedRoundTrip | src/computer/__init__.py:31-58 | for −2ⁿ⁻¹ ≤ v < 2ⁿ⁻¹ the signed reading of int_to_bits(v, n) is v |
| Bits.BitsToIntRange | src/computer/__init__.py:40-60 | the unsigned reading lies in [0, 2ⁿ) and the signed one in [−2ⁿ⁻¹, 2ⁿ⁻¹) |
| Bits.IntToBitsExample | src/computer/__init__.py:26-28 | int_to_bits(5, 8) = [1,0,1,0,0,0,0,0] |
| Bits.ValInjective | src/computer/__init__.py:54 | two bit lists of one length with equal values are equal |
| Bits.HexDigitsValue | src/computer/__init__.py:72-74 | the w-digit upper-case hex numeral of v reads back as v mod 16ʷ |
| Bits.BitsToHexSpec | src/computer/__init__.py:63-74 | bits_to_hex is "0x" then ⌈n/4⌉ (at least one) upper-case hex digits whose value is Val(bits) |
| Bits.BitsToBinSpec | src/computer/__init__.py:77-86 | bits_to_bin has one '0'/'1' per bit, MSB first, and reads back as Val(bits) |
| Alu.BitwiseSpec | src/computer/alu.py:103-121 | AND, OR, XOR and NOT act bit by bit with their truth tables |
| Alu.ShiftLeftSpec | src/computer/alu.py:123-129 | SHL gives 2a mod 256 with bit 7 shifted out |
| Alu.ShiftRightSpec | src/computer/alu.py:131-137 | SHR gives a div 2 with bit 0 shifted out |
| Alu.FlagsSpec | src/computer/alu.py:139-162 | Z is 1 iff the result is zero, N is bit 7, C and V are passed through |
| Alu.AddSpec | src/computer/alu.py:64-65 | ADD gives (a + b) mod 256, C iff a + b ≥ 256, V always 0 |
| Alu.AddOverflowCounterexample | src/computer/alu.py:64-65 | 127 + 1 overflows as signed bytes, yet V is 0 |
| Alu.SubSpec | src/computer/alu.py:66-68 | SUB gives (a − b) mod 256, C iff a < b, V from subtractor_8bit |
| Alu.CmpSpec | src/computer/alu.py:81-86 | CMP returns a unchanged with the flags SUB would set |
| Alu.LogicSpec | src/computer/alu.py:62-80 | AND/OR/XOR/NOT give the bit-wise result with C = V = 0; SHL/SHR give the shifted byte with C the bit shifted out and V = 0; Z and N come from the result in every case |
| Alu.NotIgnoresB | src/computer/alu.py:75-76 | NOT does not depend on b |
| Alu.UnknownOpcode | src/computer/alu.py:87-88 | an opcode list outside the nine constants passes a through with C = V = 0 |
| RefAlu.RefFlagsSpec | solutions/alu.py:98-109 | the NOR-chain Z flag equals the src flags: Z iff the result is zero |
| RefAlu.RefAddSpec | solutions/alu.py:31-35 | ADD gives (a + b) mod 256, C iff a + b ≥ 256, and V iff the signed sum leaves [−128, 127] |
| RefAlu.RefAddOverflowExample | solutions/alu.py:35 | 127 + 1 sets V |
| RefAlu.RefSubCmpSpec | solutions/alu.py:36-38 | SUB gives (a − b) mod 256, C iff a < b, V iff the signed difference overflows; CMP returns a with the same flags |
| RefAlu.RefUnknownOpcode | solutions/alu.py:25-27 | opcode values 9..15 give eight zeros with only Z set |
| RefAlu.OpcodeLiteral | solutions/alu.py:30 | the integer op_val of a 4-bit list is its value, and values 0..8 are the nine src opcode constants |
| RefAlu.AlusAgree | solutions/alu.py:23-60 | on opcodes 0..8 the two ALUs agree on everything except V of ADD, SUB and CMP, and agree fully on AND to SHR |
| RefAlu.AgreeAdd | solutions/alu.py:31-35 | for ADD the ALUs agree except on V |
| RefAlu.AgreeSubCmp | solutions/alu.py:36-57 | for SUB and CMP the ALUs agree except on V |
| RefAlu.AgreeAndOr | solutions/alu.py:39-42 | AND and OR agree exactly |
| RefAlu.AgreeXorNot | solutions/alu.py:43-46 | XOR and NOT agree exactly |
| RefAlu.AgreeShift | solutions/alu.py:47-50 | SHL and SHR agree exactly |
| RefAlu.ResultLength | solutions/alu.py:23-60 | every opcode gives an 8-bit result |
| Combinational.HighestActiveSpec | solutions/combinational.py:84-107 | HighestActive is the index of the last 1, or 0 when none |
| Combinational.Mux2Selects | solutions/combinational.py:9-11 | mux_2to1 returns a for sel 0 and b for sel 1 |
| Combinational.Mux4Selects | solutions/combinational.py:14-20 | mux_4to1 returns inputs[Val(sel)] |
| Combinational.Mux8Selects | solutions/combinational.py:23-29 | mux_8to1 returns inputs[Val(sel)] |
| Combinational.Demux2Routes | solutions/combinational.py:32-36 | demux_1to2 puts data on output sel and 0 on the other |
| Combinational.Demux4Routes | solutions/combinational.py:39-50 | demux_1to4 puts data at index Val(sel) and 0 elsewhere |
| Combinational.Decoder2to4OneHot | solutions/combinational.py:53-63 | decoder_2to4 is one-hot at Val(sel) |
| Combinational.Decoder3to8OneHot | solutions/combinational.py:66-81 | decoder_3to8 is one-hot at Val(sel) |
| Combinational.Encoder4to2Priority | solutions/combinational.py:84-90 | encoder_4to2 gives the index of the highest active input, 0 when none |
| Combinational.Encoder8to3SingleInput | solutions/combinational.py:93-107 | a single active input k encodes as k |
| Combinational.Encoder8to3HighBits | solutions/combinational.py:96-102 | out2 and out1 are the high bits of the highest active index |
| Combinational.Encoder8to3Counterexample | solutions/combinational.py:105 | [0,0,0,0,0,1,1,0] has highest index 6 but encodes as 7 |
| Combinational.Encoder8to3FixedPriority | solutions/combinational.py:93-107 | with out0 masked by the higher inputs, the encoder gives the highest active index |
| Sequential.SRSettleSpec | solutions/sequential.py:8-23 | S sets, R resets, neither holds, and q_bar = NOT q is kept for (S,R) ≠ (1,1) |
| Sequential.SRInvalidInput | solutions/sequential.py:15-23 | (1,1) drives both outputs to 0, breaking q_bar = NOT q |
| Sequential.SRLatch.Call | solutions/sequential.py:15-23 | the two NOR passes leave (q, q_bar) at the settled state and return q |
| Sequential.SRLatch.constructor | solutions/sequential.py:11-13 | a new latch holds q = 0, q_bar = 1, a consistent state |
| Sequential.GatedSRSpec | solutions/sequential.py:26-35 | enable 0 holds the latch; enable 1 acts as the SR latch |
| Sequential.GatedSRLatch.Call | solutions/sequential.py:32-35 | the inner latch takes the gated update and q is returned |
| Sequential.GatedSRLatch.constructor | solutions/sequential.py:29-30 | a new gated latch owns a fresh SR latch at q = 0, q_bar = 1 |
| Sequential.DLatchSpec | solutions/sequential.py:38-47 | enable 1 stores d, otherwise q holds; a repeated call changes nothing |
| Sequential.DLatch.Call | solutions/sequential.py:44-47 | q takes the D-latch update and is returned |
| Sequential.DLatch.constructor | solutions/sequential.py:41-42 | a new D latch holds q = 0 |
| Sequential.DffClockSpec | solutions/sequential.py:50-62 | q takes d only on a rising edge, and the previous clock always becomes clk |
| Sequential.DffPulse | solutions/sequential.py:57-62 | a low-then-high pulse stores d from any state |
| Sequential.DffNoRetrigger | solutions/sequential.py:57-62 | a second call with clk still 1 does not store again |
| Sequential.DFlipFlop.Clock | solutions/sequential.py:57-62 | the state takes the edge-triggered update and q is returned |
| Sequential.DFlipFlop.Read | solutions/sequential.py:64-65 | read returns q |
| Sequential.DFlipFlop.constructor | solutions/sequential.py:53-55 | a new flip-flop holds q = 0 with the previous clock 0 |
| Sequential.JkClockSpec | solutions/sequential.py:68-87 | on a rising edge (0,0) holds, (0,1) resets, (1,0) sets, (1,1) toggles; off the edge q holds |
| Sequential.JKFlipFlop.Clock | solutions/sequential.py:75-87 | the state takes the JK update and q is returned |
| Sequential.JKFlipFlop.Read | solutions/sequential.py:89-90 | read returns q |
| Sequential.JKFlipFlop.constructor | solutions/sequential.py:71-73 | a new JK flip-flop holds q = 0 with the previous clock 0 |
| Sequential.TClockSpec | solutions/sequential.py:93-103 | t = 1 toggles on a rising edge, t = 0 or no edge holds, and a pulse toggles |
| Sequential.TFlipFlop.Clock | solutions/sequential.py:99-100 | the inner JK flip-flop is clocked with j = k = t |
| Sequential.TFlipFlop.Read | solutions/sequential.py:102-103 | read returns q |
| Sequential.TFlipFlop.constructor | solutions/sequential.py:96-97 | a new T flip-flop owns a fresh JK flip-flop at q = 0, previous clock 0 |
| Registers.RegClockDisabled | src/computer/registers.py:35-38 | enable ≠ 1 leaves the flip-flops unchanged |
| Registers.RegPulseStores | src/computer/registers.py:35-38 | a low-then-high pulse stores the eight data bits |
| Registers.FreshFileReadsZero | src/computer/registers.py:53-74 | a fresh register file reads eight zeros at every index |
| Registers.WriteThenRead | src/computer/registers.py:76-92 | after an enabled in-range write, reading the index gives the data |
| Registers.WriteFrame | src/computer/registers.py:87-92 | a write changes only the addressed register, and a disabled write changes none |
| Registers.OutOfRange | src/computer/registers.py:72-74 | an index past the file reads eight zeros, and a write there changes nothing |
| Registers.Register8.Clock | src/computer/registers.py:22-38 | when enabled, flip-flop i is clocked with data bit i and the value is returned; with fewer than eight data bits only the flip-flops that have a bit are clocked and IndexError is the outcome |
| Registers.Register8.Read | src/computer/registers.py:40-43 | read returns the flip-flops' value |
| Registers.Register8.constructor | src/computer/registers.py:19-20 | a new register holds eight fresh flip-flops |
| Registers.RegisterFile.constructor | src/computer/registers.py:53-55 | n fresh registers |
| Registers.RegisterFile.Read | src/computer/registers.py:57-74 | read returns the register at Val(addr), eight zeros out of range |
| Registers.RegisterFile.Write | src/computer/registers.py:76-92 | the file becomes FileWrite of the old file; an enabled in-range write of fewer than eight bits ends in IndexError after the low clock |
| Registers.ShortWriteKeepsValues | src/computer/registers.py:87-92 | a short enabled write raises, and because only the low clock ran, every register reads as before |
| Registers.RegisterFile.ReadTwo | src/computer/registers.py:94-104 | read_two returns the two reads |
| Memory.FreshMemoryReadsZero | solutions/memory.py:9-23 | a fresh RAM reads eight zeros everywhere |
| Memory.ReadAfterWrite | solutions/memory.py:18-30 | an enabled in-range write is read back, and other cells keep their bytes |
| Memory.WriteNoOp | solutions/memory.py:25-30 | a disabled or out-of-range write changes nothing |
| Memory.LoadPlacesProgram | solutions/memory.py:32-37 | load_program places the program from start and keeps the other cells |
| Memory.MemLoadStep | solutions/memory.py:32-37 | one more byte of the program writes one cell if it is in range, else nothing |
| Memory.RAM.constructor | solutions/memory.py:9-12 | `size` zeroed cells |
| Memory.RAM.Read | solutions/memory.py:18-23 | read returns the cell at Val(address), eight zeros out of range |
| Memory.RAM.Write | solutions/memory.py:25-30 | the cells become MemWrite of the old cells |
| Memory.RAM.LoadProgram | solutions/memory.py:32-37 | the loop leaves the cells at MemLoad of the old cells |
| Counters.IncrementValue | src/computer/counters.py:32-34 | incrementing through the ripple adder gives (v + 1) mod 256 |
| Counters.IncrementWraps | src/computer/counters.py:32-34 | 255 + 1 wraps to 0 |
| Counters.CountUpValue | src/computer/counters.py:18-36 | n enabled clocks from count c give (c + n) mod 256 |
| Counters.CounterNextSpec | src/computer/counters.py:30-35 | reset gives 0, enable gives +1 mod 256, otherwise the count holds |
| Counters.BinaryCounter8.Clock | src/computer/counters.py:18-36 | count takes the counter update, whatever clk is |
| Counters.BinaryCounter8.Read | src/computer/counters.py:38-39 | read returns count |
| Counters.BinaryCounter8.constructor | src/computer/counters.py:15-16 | a new counter holds eight zero bits |
| Counters.PcNextPriority | src/computer/counters.py:73-80 | reset > load (value taken as given) > increment (+1 mod 256) > hold |
| Counters.ProgramCounter.Clock | src/computer/counters.py:55-81 | value takes the PC update, whatever clk is; incrementing a PC of fewer than eight bits ends in IndexError and leaves the PC |
| Counters.ShortLoadThenIncrement | src/computer/counters.py:73-80 | a load takes a list of any length; after a short load the next increment raises and keeps the PC, and a reset restores eight zero bits |
| Counters.ProgramCounter.Read | src/computer/counters.py:83-84 | read returns value |
| Counters.ProgramCounter.constructor | src/computer/counters.py:52-53 | a new PC holds eight zero bits |
| Clock.TicksFromReset | solutions/clock.py:12-22 | after n ticks from reset, state = n mod 2 and cycle = n div 2 |
| Clock.TickKeepsBit | solutions/clock.py:12-17 | tick flips the state and counts a cycle exactly on 1 → 0 |
| Clock.Clock.Tick | solutions/clock.py:12-17 | the state and cycle take the tick update, and the cycle is returned |
| Clock.Clock.Reset | solutions/clock.py:19-22 | cycle and state become 0 |
| Clock.Clock.GetState | solutions/clock.py:24-26 | get_state returns the state bit |
| Clock.Clock.constructor | solutions/clock.py:7-10 | a new clock has cycle 0 and state 0 |
| Clock.ControlSignals.constructor | solutions/clock.py:32-46 | all thirteen signals start at 0, with alu_op four zeros |
| Clock.ControlSignals.Reset | solutions/clock.py:48-62 | reset restores all thirteen fields to 0 |
| Clock.ControlSignals.ToDict | solutions/clock.py:64-74 | to_dict reports the seven listed signals at their current values |
| Control.AluCode | solutions/control.py:36-42 | the ALU mnemonics ADD..SHR get codes 0..7 |
| Control.FetchDecodeSignals | solutions/control.py:28-33 | FETCH sets exactly mem_read and ir_load, DECODE nothing, WRITEBACK only pc_inc |
| Control.AluOpMatchesAlu | solutions/control.py:36-42 | EXECUTE of an ALU mnemonic sets reg_write and an alu_op the reference ALU reads as that mnemonic's code |
| Control.ConditionalJumps | solutions/control.py:52-61 | JZ loads the PC iff Z, JNZ iff not Z, and exactly one of pc_load and pc_inc is set |
| Control.MemoryAndMoveSignals | solutions/control.py:43-51 | LOAD sets mem_read and mem_to_reg, STORE mem_write, MOV reg_write, JMP pc_load, and nothing else |
| Control.NoSignalsOtherwise | solutions/control.py:35-61 | EXECUTE of NOP, HALT or an unlisted name sets no signal |
| Control.NextCycles | solutions/control.py:68-72 | next_state cycles FETCH → DECODE → EXECUTE → WRITEBACK → FETCH |
| Control.ControlUnit.GenerateSignals | solutions/control.py:23-66 | the shared record is cleared and set to the signals of the state and mnemonic; the state is unchanged |
| Control.ControlUnit.NextState | solutions/control.py:68-72 | the state advances one step of the cycle |
| Control.ControlUnit.Reset | solutions/control.py:74-76 | the state becomes FETCH and the signals are cleared |
| Control.ControlUnit.constructor | solutions/control.py:19-21 | a new control unit is in FETCH with a fresh, cleared signal record |
| Isa.OpcodeTablesInverse | solutions/isa.py:8-27 | OPCODES maps the sixteen mnemonics onto 0..15 and OPCODE_NAMES is its inverse |
| Isa.OpcodeOf | solutions/isa.py:8-27 | every mnemonic's code names it back |
| Isa.NameOfTotal | solutions/isa.py:27 | every code 0..15 has a name, and only other values are "UNKNOWN" |
| Isa.BitsNRoundTrip | solutions/isa.py:30-35 | bits_to_int_n(int_to_bits_n(v, n)) = v mod 2ⁿ |
| Isa.EncodeValue | solutions/isa.py:38-70 | encode_instruction gives sixteen bits whose value is the packed word |
| Isa.EncodeDecode | solutions/isa.py:38-95 | decoding an encoded instruction gives the upper-cased mnemonic, rd and rs1 masked to 4 bits (0 where the format drops them), and the operand masked to 8 or 4 bits |
| Isa.UnknownMnemonic | solutions/isa.py:46-47 | an unknown mnemonic encodes as opcode 0 and decodes as NOP |
| Isa.DecodeReadsBitFields | solutions/isa.py:73-95 | decode reads the opcode from bits 15-12, rd from 11-8, and the operand from 7-0 (I/J) or rs1 and rs2 from 7-4 and 3-0 (R) |
| Isa.UnknownZeroWord | solutions/isa.py:46-70 | an unknown mnemonic with zero operands encodes as sixteen zeros |
| Isa.EncodeCaseInsensitive | solutions/isa.py:46 | encoding ignores the mnemonic's case |
| Decoder.DecodeAgreesWithIsa | src/computer/decoder.py:16-44 | the numeric fields are those of the ISA's decode_instruction |
| Decoder.DecodeFields | src/computer/decoder.py:27-56 | fields lie in range, the name matches the opcode, rd_bits and rs1_bits are the low three bits, rs2_bits the low eight |
| Decoder.AddressRoundTrip | src/computer/decoder.py:37-40 | a LOAD, STORE or jump address survives encode then decode modulo 256 |
| Decoder.InstructionTypeSpec | src/computer/decoder.py:58-75 | types: 0, 15 → N; 1, 2 → I; 12-14 → J; the rest R |
| Decoder.MovTypedAsRegister | src/computer/decoder.py:74-75 | MOV decodes with type 'R', although the docstring lists it under 'I' |
| RefDecoder.DecodeFields | solutions/decoder.py:12-29 | all fields lie in 0..15 and each bit list is the 4-bit encoding of its field |
| RefDecoder.DecodersAgreeOnRFormat | solutions/decoder.py:14-17 | on R-format words both decoders give the same fields |
| RefDecoder.AddressSplit | solutions/decoder.py:14-17 | an address a decodes to rs2_imm = a mod 16 and rs1 = a div 16 (a taken mod 256) |
| RefDecoder.AddressTruncatedExample | solutions/decoder.py:14-17 | LOAD R1, 32 decodes to operand 0 here and to 32 in the format-aware decoder |
| RefDecoder.InstructionTypeSpec | solutions/decoder.py:31-39 | types: 0, 15 → N; 1-3 → I; 12-14 → J; the rest R |
| DataPath.FetchSignalsChangeNothing | solutions/datapath.py:35-64 | under the FETCH signals execute_cycle changes nothing |
| DataPath.LoadMovesByte | solutions/datapath.py:35-40 | LOAD writes the memory byte at the operand address into rd; memory, flags, PC and other registers stay |
| DataPath.StoreMovesByte | solutions/datapath.py:42-47 | STORE writes rd into the memory cell at the operand address; registers, flags and PC stay |
| DataPath.MovCopies | solutions/datapath.py:49-52 | MOV copies the old rs1 into rd with flags untouched |
| DataPath.AluWritesResult | solutions/datapath.py:49-55 | an ALU mnemonic writes the ALU result on the old rs1 and rs2 into rd and latches the ALU flags |
| DataPath.JumpsSetPc | solutions/datapath.py:58-64 | a taken jump loads the operand as PC, an untaken one adds one, and no data moves |
| DataPath.FetchFlipsBit0 | solutions/datapath.py:71 | the second fetch address is PC + 1 at even PC and PC − 1 at odd PC |
| DataPath.DataPath.constructor | solutions/datapath.py:16-22 | PC 0, zeroed RAM and registers, IR of sixteen zeros, all flags 0 |
| DataPath.DataPath.ExecuteCycle | solutions/datapath.py:24-64 | the state becomes ExecCycle of the old state, signals and decoded fields |
| DataPath.DataPath.MoveData | solutions/datapath.py:25-55 | the registers, memory and flags take the LOAD / STORE / ALU-or-MOV update |
| DataPath.DataPath.FetchInstruction | solutions/datapath.py:66-73 | fetch returns mem[PC] followed by mem[PC with bit 0 flipped] and changes nothing |
| DataPath.DataPath.LoadInstruction | solutions/datapath.py:75-76 | the IR becomes the instruction |
| DataPath.DataPath.GetPc | solutions/datapath.py:78-79 | get_pc returns the PC |
| DataPath.DataPath.SetPc | solutions/datapath.py:81-82 | set_pc loads the value as given |
| DataPath.DataPath.WriteAluResult | solutions/datapath.py:47-53 | the flags take the reference ALU's flags and rd takes its result; nothing else changes |
| DataPath.DataPath.WriteRegister | solutions/datapath.py:53 | the file becomes FileWrite of the old file at rd, enabled (the LOAD branch's write at line 39 is the same call); nothing else changes |
| DataPath.DataPath.StoreByte | solutions/datapath.py:41-45 | the RAM becomes MemWrite of the old RAM at the address, enabled; nothing else changes |
| Cpu.HaltedStepIsIdle | solutions/cpu.py:44-45 | a halted CPU's step changes nothing and returns False |
| Cpu.StepKeepsControlState | solutions/cpu.py:43-63 | step never moves the control unit's state |
| Cpu.StepHalts | solutions/cpu.py:35-38 | step sets halted iff the word is HALT, and returns True iff not halted |
| Cpu.StepNeverExecutes | solutions/cpu.py:40-41 | in FETCH a step moves no data: the IR and the current instruction are set, and the PC gains one unless the word is a jump or HALT |
| Cpu.NextFetchRereadsWord | solutions/cpu.py:59-60 | after a non-jump at an even PC the next fetch reads the same word's two bytes swapped |
| Cpu.RunBound | solutions/cpu.py:65-69 | run returns a count at most max_cycles, and a smaller count means the CPU halted |
| Cpu.RunMovesNoData | solutions/cpu.py:65-69 | a run from FETCH leaves registers, memory and flags unchanged |
| Cpu.IntendedFetchReadsWord | solutions/system.py:29-37 | a word stored at p and p + 1 is read back by the intended fetch |
| Cpu.IntendedStepExecutes | solutions/cpu.py:43-63 | the intended step executes any stored word other than HALT under the EXECUTE signals |
| Cpu.IntendedAddEncoded | solutions/cpu.py:43-63 | the intended step of ADD rd, rs1, rs2 writes (R[rs1] + R[rs2]) mod 256 into rd and moves the PC by two |
| Cpu.IntendedJump | solutions/cpu.py:43-63 | the intended step of JMP a sets the PC to a mod 256, addresses of 16 and above included |
| Cpu.AddWritesSum | solutions/datapath.py:49-55 | executing ADD under the EXECUTE signals writes the 8-bit sum into rd |
| Cpu.CPU.constructor | solutions/cpu.py:15-21 | a fresh data path, control in FETCH, not halted, no current instruction, clock at 0 |
| Cpu.CPU.Reset | solutions/cpu.py:23-27 | PC 0, control FETCH, not halted, no current instruction; registers, memory, flags and clock stay |
| Cpu.CPU.FetchWordAtPc | solutions/cpu.py:29-30 | fetch returns the data path's fetched word |
| Cpu.CPU.Execute | solutions/cpu.py:35-41 | HALT sets halted; anything else runs one execute_cycle under the control unit's signals |
| Cpu.CPU.FetchAndDecode | solutions/cpu.py:47-53 | the IR takes the fetched word and the current instruction its decoding |
| Cpu.CPU.AdvancePc | solutions/cpu.py:58-60 | the PC gains one unless the instruction is JMP, JZ, JNZ or HALT; nothing else changes |
| Cpu.CPU.TickClock | solutions/cpu.py:62 | the clock takes one tick; nothing else changes |
| Cpu.CPU.Step | solutions/cpu.py:43-63 | the state and the return value are StepSpec of the old state |
| Cpu.CPU.Run | solutions/cpu.py:65-69 | the state and the count are RunSpec of the old state and the budget |
| Assembler.StripTrims | solutions/assembler.py:84 | strip leaves a string with no whitespace at either end |
| Assembler.StripBlank | solutions/assembler.py:84-86 | strip gives the empty string exactly on all-whitespace lines |
| Assembler.SplitJoin | solutions/assembler.py:29 | joining the pieces of a split gives the string back |
| Assembler.JoinSplit | solutions/assembler.py:110 | splitting a join of separator-free pieces gives the pieces back |
| Assembler.NumeralRoundTrip | solutions/assembler.py:125-126 | reading a base-10 or base-16 numeral gives its number back |
| Assembler.ParseIntNumeral | solutions/assembler.py:125-126 | int(str(n)) = n and int(hex(n), 16) = n |
| Assembler.ParseIntNegative | solutions/assembler.py:126 | a minus sign and decimal digits read as the negated value |
| Assembler.ParseRegNamesRegister | solutions/assembler.py:114-117 | R or r followed by decimal digits names the register they give |
| Assembler.ParseRegOther | solutions/assembler.py:118 | an operand not starting with R or r is register 0 |
| Assembler.ParseValueLabelFirst | solutions/assembler.py:122-123 | a label is looked up before any numeric reading |
| Assembler.ParseValueDecimalDigits | solutions/assembler.py:126 | decimal digits that are not a label read as their value |
| Assembler.ParseValueHexDigits | solutions/assembler.py:124-125 | 0x and hexadecimal digits that are not a label read as their value |
| Assembler.ParseLine | solutions/assembler.py:83-112 | a line parses to nothing iff its code before ';' is blank, and a parsed line carries its label |
| Assembler.ParseLineKind | solutions/assembler.py:98-112 | a parsed line has a mnemonic iff it is an instruction line and a directive iff it is a directive line |
| Assembler.CommentLineIgnored | solutions/assembler.py:84-86 | a comment-only line parses to nothing |
| Assembler.DictSetGet | solutions/assembler.py:47 | data_bytes[k] = v reads back v at k, leaves other keys alone and keeps keys unique |
| Assembler.FirstPassLineEffect | solutions/assembler.py:29-48 | one line places an instruction at the cursor, binds its label to the cursor, and moves the cursor by two per instruction |
| Assembler.FirstPassFailPersists | solutions/assembler.py:29-48 | an exception on one line ends the whole pass |
| Assembler.FirstPassPlacesInstructions | solutions/assembler.py:37-41 | the placed lines are exactly the instruction lines, in source order |
| Assembler.DenseAddresses | solutions/assembler.py:27-41 | without directives the k-th instruction sits at address 2k |
| Assembler.LabelAddress | solutions/assembler.py:34-35 | without directives a label is bound to twice the number of instructions above its last binding line |
| Assembler.BlankLineNoEffect | solutions/assembler.py:31-32 | a blank or comment line leaves the first pass where it was |
| Assembler.SecondPassWords | solutions/assembler.py:55-79 | each word is its placed line encoded |
| Assembler.SecondPassFails | solutions/assembler.py:55-79 | the second pass fails iff some placed line fails to encode |
| Assembler.UnknownMnemonicZeroWord | solutions/assembler.py:59-78 | an unknown mnemonic assembles to sixteen zeros |
| Assembler.MissingOperandsDefault | solutions/assembler.py:59-76 | too few operands for the group leave every field 0 |
| Assembler.JumpToLabel | solutions/assembler.py:74-76 | a jump to a label decodes to that jump and the label's address mod 256 |
| Assembler.RegisterOperands | solutions/assembler.py:61-65 | R&lt;a&gt;, R&lt;b&gt;, R&lt;c&gt; of an ADD-group mnemonic become rd, rs1 and rs2 |
| Assembler.AssembleWords | solutions/assembler.py:18-23 | assembling gives one word per instruction line, in order, each its line encoded with the finished symbol table |
| Assembler.Assembler.constructor | solutions/assembler.py:13-16 | empty symbol table, errors and data bytes |
| Assembler.Assembler.Assemble | solutions/assembler.py:18-23 | the tables are cleared and the result is AssembleSpec of the source |
| Assembler.Assembler.FirstPass | solutions/assembler.py:25-50 | the loop leaves the symbol table, data bytes and placed lines as FirstPassSpec gives them |
| Assembler.Assembler.Record | solutions/assembler.py:34-48 | one parsed line updates the tables and the cursor as LineStep gives |
| Assembler.Assembler.SecondPass | solutions/assembler.py:52-81 | the loop gives SecondPassSpec of the placed lines |
| System.StoreWordInRange | solutions/system.py:29-37 | a word at addr puts its low byte at addr and its high byte at addr + 1 |
| System.LoadCodePlacesWords | solutions/system.py:26-37 | word k is stored at start + 2k and start + 2k + 1 |
| System.LoadCodeElsewhere | solutions/system.py:26-37 | cells outside the loaded range keep their bytes |
| System.LoadDataLastWins | solutions/system.py:21-24 | a data byte not overwritten by a later one is in memory afterwards |
| System.LoadDataElsewhere | solutions/system.py:21-24 | cells no data entry addresses keep their bytes |
| System.ProgramFetchable | solutions/system.py:16-24 | after load_program without data, word k of the program is fetched from address 2k |
| System.DataOverridesCode | solutions/system.py:16-24 | a data byte overrides code at the same cell |
| System.RegisterAddress | solutions/system.py:58-61 | the 3-bit address of register i names register i |
| System.Computer.LoadMachineCode | solutions/system.py:26-37 | the loop leaves memory at LoadCode of the old memory |
| System.Computer.StoreInstruction | solutions/system.py:30-37 | one word is stored as its two bytes |
| System.Computer.LoadDataBytes | solutions/system.py:21-24 | the loop leaves memory at LoadData of the old memory |
| System.Computer.LoadProgram | solutions/system.py:16-24 | memory holds the program image iff assembly succeeds, and is unchanged otherwise |
| System.Computer.Run | solutions/system.py:39-48 | the CPU ends as RunSpec gives and the dump of that state is returned |
| System.Computer.Reset | solutions/system.py:50-52 | only the CPU's reset fields change |
| System.Computer.DumpState | solutions/system.py:54-62 | the dump reports the CPU state and the value of each register R0..R7 |
| System.Computer.constructor | solutions/system.py:11-14 | a new computer has a fresh CPU in FETCH, not halted, with zeroed memory, and a fresh assembler |

## Left out

- Console output and string formatting. This covers `RAM.dump`, `Computer.dump_registers`, `_format_bits`, the debug print in `Computer.run` and the dict packing of `CPU.get_state`. They hold no logic beyond what `DumpOf` records.
- The test suites and the checker utilities. They run tests and print results; they contribute no behaviour.
- The `src/` modules that are exercise stubs. These are combinational, sequential, memory, clock, control, datapath, cpu, isa (apart from its OPCODES table), assembler and system. Their implemented fragments repeat the `solutions/` code modelled here.
- The state after a Python exception. An `int()` ValueError or a KeyError in the assembler becomes a `Fail` result. The assembler's `errors` list is never written by the source and stays empty here.
- Python's `int()` beyond ASCII. Underscores between digits and non-ASCII digits are not accepted. `str.strip`, `str.split`, `str.upper` and `str.lower` act on the Latin-1 whitespace and the ASCII letters only.
- Dicts become insertion-ordered lists of pairs. This is `data_bytes` in the assembler (keys unique), and the Python dicts of decoded fields and signals, which become datatypes.
- The control unit's MEMORY state. It is declared but never entered, and is not modelled.
- The `clk` arguments of the counters and the register file. They are ignored by the source and are parameters here.
- Register8's flip-flops are modelled as a sequence of flip-flop values, not eight separate objects. Aliasing between them cannot occur in the source.
- The aliasing of the shared ControlSignals object that generate_signals returns. The CPU reads it at once, so the model passes its value.
- System.Computer.LoadMachineCode, System.Computer.StoreInstruction: require every word to have 8 or 16 bits. Other lengths would store cells that are not bytes, which the source lets through and the model does not represent.
- DataPath.DataPath.ExecuteCycle: requires an alu_op of at least four bits when the ALU is used. A shorter list raises IndexError in the source.
- Adders.RippleCarryAdder8, Adders.Subtractor8, Adders.TwosComplement, RefAdders.Subtractor8: require lists of at least eight bits. The source indexes bits 0 to 7 and raises IndexError on a shorter list; that error is not modelled.
- Alu.BitAnd, Alu.BitOr, Alu.BitXor, Alu.BitNot, Alu.ShiftLeft, Alu.ShiftRight, Alu.CalculateFlags, Alu.Execute: require operands of at least eight bits (b only where the opcode reads it). The source raises IndexError on a shorter list; that error is not modelled.
- RefAlu.OpVal, RefAlu.RefFlags, RefAlu.Execute: require an opcode of at least four bits and operands of at least eight bits where the opcode reads them. The source raises IndexError on shorter lists; that error is not modelled.
- Combinational.Mux4, Combinational.Mux8, Combinational.Demux4, Combinational.Decoder2to4, Combinational.Decoder3to8, Combinational.Encoder4to2, Combinational.Encoder8to3: require the input list and the select list to hold at least the bits the circuit reads. The source raises IndexError on shorter lists; that error is not modelled.
- Counters.Increment: requires at least eight bits. The source's adder raises IndexError on a shorter list. ProgramCounter.Clock models that error itself; the binary counter always holds eight bits.
- DataPath.DataPath.Valid, DataPath.FlipBit0, DataPath.FetchWord: require a PC of at least eight bits. SetPc accepts a list of any length, as set_pc does. After a shorter load the source's fetch_instruction raises IndexError while building the second address. The methods that require Valid (FetchInstruction, ExecuteCycle and the CPU's Step and Run) do not model that state.
- Registers.RegisterFile.Read, Registers.RegisterFile.Write, Registers.RegisterFile.ReadTwo: require the address to be a list of 0/1 bits. With other ints the index can be negative, and the source then only checks `idx < num_registers`, so Python indexes from the end of the file (or raises IndexError below minus the file size). Negative indexing is not modelled.
- Bits.BitsToHex, Bits.BitsToBin: require a list of 0/1 bits. The source formats any ints: a negative value prints with a minus sign, and an element other than 0 or 1 prints its own decimal digits. Those strings are not modelled.
- Bits.IntToBits, Isa.IntToBitsN, Memory.RAM.constructor, Registers.RegisterFile.constructor: take a width or size of type `nat`. With a negative width, the source's int_to_bits raises ValueError (a negative shift count) and int_to_bits_n returns an empty list. With a negative size, RAM and RegisterFile build an empty store that reads zeros. Every caller passes a non-negative constant; negative widths and sizes are not modelled.
- Memory.RAM.LoadProgram: takes a start address of type `nat`. With a negative start the source writes `memory[start + i]` from the end of the RAM, or raises IndexError below minus the RAM size. Every caller passes 0 or more; negative starts are not modelled.

## Findings

| source | as written | input that shows it | evidently intended | confidence | as-written member | corrected member |
|---|---|---|---|---|---|---|
| src/computer/adders.py:156-157 | subtract overflow uses the addition formula (equal sign bits of a and b, result sign differs) | 0 − 1: the result −1 fits in a signed byte, yet overflow is 1 | overflow iff a₇ ≠ b₇ and r₇ ≠ a₇, i.e. the signed difference leaves [−128, 127] | not executed | Adders.Subtractor8OverflowCounterexample | RefAdders.Subtractor8Spec |
| src/computer/alu.py:64-65 | ADD never sets V | 127 + 1 = −128 as signed bytes, V = 0 | V iff the signed sum leaves [−128, 127] | not executed | Alu.AddOverflowCounterexample | RefAlu.RefAddSpec |
| solutions/combinational.py:105 | out0 of encoder_8to3 is not masked by higher inputs | [0,0,0,0,0,1,1,0] encodes as 7 instead of 6 | the index of the highest active input | not executed | Combinational.Encoder8to3Counterexample | Combinational.Encoder8to3FixedPriority |
| solutions/decoder.py:14-17 | every word is split R-format, so I/J operands keep only their low nibble | LOAD R1, 32 decodes to operand 0 | the 8-bit operand, as in the format-aware decoder | not executed | RefDecoder.AddressTruncatedExample | Decoder.AddressRoundTrip |
| src/computer/decoder.py:74-75 | MOV is typed 'R' | opcode 3 gives 'R' | 'I', as the docstring at line 63 lists | not executed | Decoder.MovTypedAsRegister | RefDecoder.InstructionTypeSpec |
| solutions/cpu.py:40-41 | the control unit is never advanced, so execute runs under the FETCH signals | ADD R1, R2, R3 leaves R1 unchanged | the EXECUTE signals, so the instruction takes effect | not executed | Cpu.StepNeverExecutes | Cpu.IntendedAddEncoded |
| solutions/cpu.py:59-60 | the PC gains one per two-byte instruction, and fetch flips bit 0 | after a non-jump at PC 0 the next fetch reads bytes 1 and 0 | the PC moves by two, and fetch reads PC and PC + 1 | not executed | Cpu.NextFetchRereadsWord | System.ProgramFetchable |
