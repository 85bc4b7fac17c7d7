# A model of the ENC28J60 Ethernet station

The repository is the firmware of a small Ethernet station: an STM32 drives a Microchip ENC28J60 Ethernet controller over
SPI and runs the lwIP stack on top. This project models the hand-written driver *together with the chip it drives* and
proves what the two do in common, down to the single SPI byte, while the chip receives, transmits and works on its own
between any two bytes. Two smaller parts are modelled as well: the string and number routines of lwIP's `def.c`, and the
interrupt priority functions of CMSIS.

Run `dafny verify dfyconfig.toml` here to check everything.

## How the model is built

`Chip.dfy` holds the chip as a value of the datatype `Chip`: the serial decoder (what phase the current select window is
in), ECON1 and ECON2, 128 register cells (four banks, the five common registers once), the 8 KB buffer memory, the receive
write pointer and the latched guard ERXRDPT, the packet counter, the transmit and MII countdowns, and the PHY registers.
`Exchange`, `CsFall` and `CsRise` are its reactions to the pins; `Elapse` is what it may do by itself in one step of time.
`log` records every frame it ever stored and `sent` every packet it ever transmitted; both are only there to state
properties. `violations` records what a driver must never do: a second command in a select window, a byte while
deselected, a command cut short, a bit field command on a MAC or MII register, ECON1 written or the buffer written while TXRTS is 1, a management operation started or
its data read while BUSY. `Trace.dfy` proves that nothing ever removes one, so that a run which ends without one never had one.

`Port.dfy` is the byte-level port: the class `Bus` owns the chip, and one step of `Elapse` happens before *every* byte and
every fall of the select line. What happens in a step - frames arriving, whole or as fragments that never complete, how
long the next transmission or management operation takes, what the dummy byte is, what the transmit status vector is -
comes from an arbitrary function `schedule: nat -> Slot`, so a theorem about a run is a theorem about every interleaving.
`Bus` also records the history, every step and every state since its construction; that the chip's state came out of
exactly these steps (`Bus.Faithful`) is part of what every method keeps. `Bus.clocked` is the row of bytes the driver has
clocked out so far; contracts of the register and buffer functions say which bytes they add, as numbers.

The driver is the class `Enc28j60` of `Device.dfy`; its methods mirror the C functions, with loops where the C code has
loops. Long C functions are split at their stages (`ReadControlReg` and `ReadPhyReg` are the cases of one `switch`; the
stages of `enc28j60_ll_init` are separate methods), and each method is proved against a relation on chip states:

- `Environment.Evolves(c, d)`: only time passed. It contains that the receive ring is kept, whatever arrives.
- `Quiescence.Undisturbed(c, d)`: besides, the driver selected another bank or changed cells that have no side effect.
- `RxRing.Ring(c, head, taken, owed)`: the frames `log[taken..]` lie one after another from `head` to ERXWRPT, their
  headers chain them, ERXRDPT is the cyclic predecessor of `head`, and the packet counter is their number (plus one while
  a frame has been given back but PKTDEC not yet written).
- `PhyAccess.PhyOnly(c, d)`: besides, PHY registers were read or written.
- `Interface.Ready(dev)`: what holds between two calls once the driver is initialised.
- `BufferAccess.Filled(c, d, p, n)`: the driver wrote the `n` bytes from `p` on, and nothing else was disturbed.

`Station.dfy` adds `main.c`: the walk over a pbuf chain and the input function, against a stack whose decisions (does the
pool have a buffer, is a packet accepted, what is sent in reply or by a timer) are again arbitrary functions.
`Account.dfy` says what the main loop has to do as a function of the frames its turns consume and of these decisions,
without driver or chip; `Program.dfy` proves that the loop does exactly that. `Program.Run` is the whole program from a
chip in any state between two commands. `Stack.seen` records how many frames the chip had stored whenever the timers had
been checked, that is when the next turn began; `Prompt` says with it that a turn without a frame found none waiting.

Waiting loops end because the chip's countdowns are finite: each poll takes at least one step of the chip's time.

### What is assumed of the chip

- ERDPT wraps from ERXND to ERXST; EWRPT wraps at 0x1fff; both move only while AUTOINC is 1.
- Writing ERXST reloads ERXWRPT. ERXRDPT takes effect when its high byte is written.
- A frame is stored only while RXEN is 1 and only if it does not reach the byte ERXRDPT points to; its start and the next
  packet pointer in its header are even; the counter does not go beyond 255. A fragment of a frame that is dropped later
  may be written into the same free space.
- Writing PKTDEC decrements the counter and the bit reads as 0. TXRTS and BUSY are cleared by the chip alone.
- The seven bytes behind ETXND receive the transmit status vector.
- MAC and MII registers send a dummy byte first; it may be anything.
- A system reset makes CLKRDY fall; it rises again after any finite time. The 50 µs that have to pass after a reset
  before the PHY is accessed (enc28j60_ll.h:21) are not modelled: PHY access is assumed to work as soon as the reset is
  over.
- After a system reset ECON1 is 0 and every other register, PHY registers included, has some fixed value; the buffer
  memory keeps its contents.
- PHY registers keep what is written; a management operation may take any finite time.

### Notes on the code

- PDPXMD is the bit of weight 128 in `PHCON1_REG_16` (the struct's fields add up to 15 bits). The model sets the bit the
  code sets.
- The comments at `enc28j60_ll.h:70` and `:79` say that buffer access needs AUTOINC. The model makes it a precondition;
  that it holds after initialisation for good is part of `Ready`.
- `write_buf` counts with a signed 16-bit index. `LoopEndsIffShort` says for which lengths the loop ends; `WriteBuf`
  requires them, and every caller is within them.
- `lwip_strnicmp` decrements its counter before testing it, so a length of 0 compares everything (`CompareNothing` is an
  example). Its contract covers that case.
- Characters are bytes 0 to 255; whether `char` is signed makes no difference to the comparisons modelled.

## Model

| member | source | states |
|---|---|---|
| Program.Run | User/core/src/main.c:95-132 | from any chip state between two commands, whatever the schedule and the stack do: the greeting is sent, then the turns receive, hand over, answer and send as for the main loop, with the frames stored since the driver was initialised; a turn that consumed none began when none was left; every frame up to the longest the MAC lets in, 1518 bytes as written to MAMXFL, that has more than a CRC and is granted a buffer is handed over whole but for its last four bytes; at no point of the chip's history was the protocol violated; at the end ring bounds, station address, filter, MAC, PHY, AUTOINC and RXEN are still as initialisation set them |
| Program.MainLoop | User/core/src/main.c:120-132 | any number of turns: they consume the stored frames in order, a turn that consumed none began when none was left in the chip, and what was handed to the stack, what it was asked to send and did send, and how often pool, input function and timers were called is exactly what `RunOf` computes from these frames and the stack's decisions; no receive buffer is left over |
| Program.Turn | User/core/src/main.c:123-129 | the oldest waiting frame is consumed, or none was waiting; it is handed over exactly if it has bytes and the pool grants a buffer, and what is handed over is its data up to the four bytes of CRC, cut to the buffer; the replies to it and then what the timers ask for are sent; no buffer is owned at the end; how many frames the chip holds when the turn ends is recorded |
| Account.Conservation | User/core/src/main.c:27-39 | consumed frames = frames handed over + frames with bytes that the pool refused a buffer + frames without bytes, each of the three a set determined by the frames and the pool's decisions |
| Account.FateMeaning | User/core/src/main.c:27-39 | a consumed frame is dropped exactly if there are no bytes to deliver, or the pool refuses the request made for it, which is counted by the frames with bytes before it |
| Account.GivenWhole | User/core/src/main.c:95-123 | a buffer that is at most four bytes shorter than the longest frame gives every granted frame whole, in its place in the order of those handed over |
| Account.RunDependsOnFrames | User/core/src/main.c:123-129 | idle turns do not matter: what is handed over, and how often the pool and the input function are called, depends on the consumed frames and the pool's decisions only |
| Account.PromptConsumes | User/core/src/main.c:120-128 | from any turn on: as long as a frame that was stored when it began is left, every turn consumes one |
| Program.RunAccounts | User/core/src/main.c:120-132 | every run of the loop hands over the stored frames in order, each once, but for the empty and the refused ones, and from any turn on consumes one per turn or all that were stored when it began |
| Program.Serve | User/core/src/main.c:124-129 | a received buffer is handed over and answered, then the timers are served; nothing else is sent |
| Station.LowLevelInput | User/core/src/main.c:27-39 | a fresh buffer with exactly the delivered bytes of the oldest frame, if and only if a frame was consumed, it is not empty and the allocator grants a buffer; otherwise no buffer is owned |
| Station.HandOver | User/core/src/main.c:124-128 | the received buffer is given to the stack, or freed if refused: afterwards the driver side owns what it owned before it was allocated |
| Station.LowLevelOutput | User/core/src/main.c:41-50 | a chain goes out as one packet: a control byte of 0, and byte i of every buffer q at 1 + tot_len(p) - tot_len(q) + i, both in the packet sent and in the transmit area from 0x1800 on; pointers and registers are as after `SendPacket` of that packet |
| Station.SentMeaning | User/core/src/main.c:41-50 | what is said to be sent for a list of chains is one packet each, in order, every byte of every buffer in its place |
| Station.FlattenLength | User/lwip/inc/lwip/pbuf.h:193-200 | the invariant of tot_len means that it is the number of payload bytes of the chain |
| Station.EthernetFits | User/core/src/main.c:69 | a packet within the mtu of 1500 and the link header of 14 fits the transmit area from 0x1800 on with control byte and status vector |
| Interface.ReceivePacket | User/enc28j60/interface/src/enc28j60.c:43-75 | if a frame waits, the oldest one is consumed; if its data is a payload followed by four bytes of CRC the buffer starts with the payload cut to maxlen, data of at most four bytes comes as it is, cut likewise, and the rest of the buffer is unchanged; the cursor moves on; frames arriving meanwhile are kept; transmit registers and memory are left alone |
| Interface.GuardLatched | User/enc28j60/interface/src/enc28j60.c:58-65 | between the two bytes of ERXRDPT the old frame is still guarded, afterwards the ring starts at the next frame, whatever arrives in between |
| Interface.ReleaseRing | User/enc28j60/interface/src/enc28j60.c:57-65 | the new ERXRDPT, predecessor of the next packet pointer or ERXND if that is ERXST, frees exactly the consumed frame |
| Interface.ReleaseFrame | User/enc28j60/interface/src/enc28j60.c:57-65 | cursor, ERDPT and ERXRDPT all move to the next frame |
| Interface.DecrementCount | User/enc28j60/interface/src/enc28j60.c:67-71 | writing a copy of ECON2 back with PKTDEC set counts the released frame off even if frames arrived since the copy was read, and changes nothing else; on the bus the copy is or'ed with 64 |
| Interface.HeaderDecodes | User/enc28j60/interface/inc/enc28j60_priv.h:5-9 | the header struct laid over the six bytes the chip stores gives back next pointer, length and status |
| Interface.FrameLayout | User/enc28j60/interface/inc/enc28j60_priv.h:5-9 | where header and data of the oldest frame lie: next pointer, length and status in the bytes 0 to 5, low bytes first, data from byte 6 on |
| Interface.CopyFrame | User/enc28j60/interface/src/enc28j60.c:47-55 | header and payload of the oldest frame are read where they lie, also if they wrap from the ring's end to its start |
| Transmission.SendPacket | User/enc28j60/interface/src/enc28j60.c:77-103 | exactly the given packet is sent, once; ETXST, ETXND and EWRPT enclose it; the ring, its frames and ERDPT and ERXRDPT are kept |
| Transmission.WriteToTx | User/enc28j60/interface/src/enc28j60.c:105-113 | a piece is appended to those collected in the transmit area |
| Transmission.ReadyToSend | User/enc28j60/interface/src/enc28j60.c:115-139 | the collected pieces are sent as one packet and the cursor is back at the start |
| Transmission.PrepareToTx | User/enc28j60/interface/src/enc28j60.c:141-143 | nothing is collected |
| Transmission.SameOutcome | User/enc28j60/interface/src/enc28j60.c:77-143 | `SendPacket` and `LowLevelOutput` both promise `Transmitted`; that fixes the packet sent, its bytes in the transmit area, the three pointers and all other cells |
| Transmission.AwaitTransmitter | User/enc28j60/interface/src/enc28j60.c:99-102 | polling ends, with TXRTS clear, and only time has passed: ECON1 is not written while the chip may clear TXRTS |
| Transmission.TransmissionEnds | User/enc28j60/interface/src/enc28j60.c:94-102 | from setting TXRTS to its clearing the packet is intact and reception went on undamaged |
| Transmission.Fire | User/enc28j60/interface/src/enc28j60.c:94-102 | one write of TXRTS sends exactly the bytes from ETXST to ETXND, once, and the function waits for the end |
| Transmission.Trigger | User/enc28j60/interface/src/enc28j60.c:94-98 | ECON1 is read once and written once, or'ed with 8 on the bus, and that starts one transmission of the bytes from ETXST to ETXND |
| RxRing.ReceiveKeepsRing | User/enc28j60/interface/src/enc28j60.c:57-71 | an arriving frame, complete or not, never touches an unread byte and joins the end of the queue |
| RxRing.ChainStable | User/enc28j60/interface/src/enc28j60.c:57-71 | the chain of unread frames depends on its own bytes only |
| RxRing.FreeSpace | User/enc28j60/lowlayer/src/enc28j60_ll.c:347-348 | the space from ERXWRPT to ERXRDPT is exactly what the unread frames leave |
| RxRing.GuardIsOdd | User/enc28j60/interface/src/enc28j60.c:60-65 | ERXRDPT is odd and inside the ring |
| Environment.ElapseEvolves | User/enc28j60/interface/src/enc28j60.c:43-103 | what the driver relies on while it works: one step of the chip's own time keeps the ring, the log, the driver's registers and the packet in transmission, and brings every wait closer to its end |
| Trace.NeverViolated | User/enc28j60/lowlayer/src/enc28j60_ll.c:136-302 | over any history of the chip no violation, no frame stored and no packet sent is forgotten: a violation-free end means there was none at any point |
| Port.Bus.SendShortCmd | User/enc28j60/port/src/enc28j60_port.c:65-70 | one byte each way, in a state the chip may have reached meanwhile |
| Port.Bus.SendData8 | User/enc28j60/port/src/enc28j60_port.c:72-83 | opcode and value: the register is stored once, in the bank selected |
| Port.Bus.SendMask8 | User/enc28j60/port/src/enc28j60_port.c:72-83 | as a bit field command: the bits change once, in the bank selected |
| Port.Bus.ReadData8 | User/enc28j60/port/src/enc28j60_port.c:85-95 | the second byte is the register's value |
| Port.Bus.ReadData16 | User/enc28j60/port/src/enc28j60_port.c:115-131 | for a MAC or MII register the low byte of the result is its value, whatever the dummy byte is |
| Port.Bus.CsLow | User/enc28j60/port/src/enc28j60_port.c:60-62 | a selected chip stays in its window: a nested access does not start a second one |
| Registers.BankChanging | User/enc28j60/lowlayer/src/enc28j60_ll.c:136-146 | cache and chip agree on the new bank; no other register has changed; the protocol is kept also if the select line was low before; on the bus ECON1 is read and written back with its lowest two bits replaced |
| Registers.StoreBank | User/enc28j60/lowlayer/src/enc28j60_ll.c:139-143 | writing ECON1 back with another BSEL changes nothing else if no transmission is under way |
| Registers.ReadControlReg | User/enc28j60/lowlayer/src/enc28j60_ll.c:190-216 | the register's value, cut to its length; of two bytes each is the one the register had when it was read; no cell has changed; one opcode a byte is clocked out, and as many dummy bytes as its type needs |
| Registers.ReadWhole | User/enc28j60/lowlayer/src/enc28j60_ll.c:196-216 | of the two-byte registers the chip itself changes, MIRD reads whole while no management operation runs, and ERXWRPT while reception is off |
| Registers.WriteControlReg | User/enc28j60/lowlayer/src/enc28j60_ll.c:148-162 | the bytes take effect in order in the right bank, each behind an opcode of its own on the bus; a register without side effects just gets its value |
| Registers.WriteThenRead | User/enc28j60/lowlayer/src/enc28j60_ll.c:148-216 | any ETH, MAC or MII register but ECON1 and ECON2, EIE and EIR included, written and read back gives the value it can hold; no other register has changed but BSEL; ERXRDPT takes effect and ERXWRPT is reloaded exactly if their registers were written; PHY registers and MIRD change only by the management operation that writing MIWR, or MICMD with MIIRD set, starts |
| Registers.InterruptRegisters | User/enc28j60/lowlayer/inc/enc28j60_register_map.h:74-75 | EIE and EIR are registers `WriteThenRead` applies to, though common to all banks |
| Registers.PlainWrite | User/enc28j60/lowlayer/src/enc28j60_ll.c:154-161 | writing a register without side effects only changes its cells |
| ChipModel.Econ1Layout | User/enc28j60/lowlayer/inc/enc28j60_register_map.h:203-212 | BSEL is the lowest two bits of ECON1, RXEN the bit of weight 4, TXRTS that of weight 8, and the four others above |
| ChipModel.Econ1Sets | User/enc28j60/lowlayer/inc/enc28j60_register_map.h:203-212 | setting RXEN or TXRTS in the struct is or-ing the byte with 4 or 8 |
| ChipModel.Econ1RoundTrip | User/enc28j60/lowlayer/inc/enc28j60_register_map.h:203-212 | the fields of ECON1 laid over its byte and back are the same |
| ChipModel.Econ2Layout | User/enc28j60/lowlayer/inc/enc28j60_register_map.h:214-222 | AUTOINC is the bit of weight 128 of ECON2, and PKTDEC, of weight 64, reads as 0 |
| PhyAccess.PeekBusy | User/enc28j60/lowlayer/inc/enc28j60_register_map.h:224-231 | the lowest bit of MISTAT tells whether a management operation runs |
| BringUp.PeekClock | User/enc28j60/lowlayer/inc/enc28j60_register_map.h:160-169 | the lowest bit of ESTAT tells whether the clock is ready |
| PhyAccess.WritePhyReg | User/enc28j60/lowlayer/src/enc28j60_ll.c:163-186 | given that bank 2 is selected, the PHY register holds the value once the function returns, and BUSY has cleared; apart from that nothing is disturbed, reception going on or not |
| PhyAccess.ReadPhyReg | User/enc28j60/lowlayer/src/enc28j60_ll.c:217-280 | the PHY register's value, fetched only after BUSY has cleared; MIIRD is clear again; bank 2 is selected; reception may go on |
| PhyAccess.PhyOnlyMeaning | User/enc28j60/lowlayer/src/enc28j60_ll.c:163-280 | a PHY access keeps the ring with the frames that arrive meanwhile, the protocol, the control bits and what was sent |
| PhyAccess.MiiDone | User/enc28j60/lowlayer/src/enc28j60_ll.c:176-184 | when BUSY has cleared the operation is done, exactly once, and nothing else has happened |
| PhyAccess.AwaitMii | User/enc28j60/lowlayer/src/enc28j60_ll.c:178-184 | polling with nested register reads ends and opens no second command in a window |
| BitFields.ChangeField | User/enc28j60/lowlayer/src/enc28j60_ll.c:304-326 | both bit field functions: bits of an ETH register change in one step of the chip, in the right bank, by the opcode 0x80 or 0xa0 with the register's address, and the mask; for other registers nothing at all happens |
| Bytes.OrBits | User/enc28j60/lowlayer/inc/enc28j60_ll.h:48-53 | register or mask, bit by bit |
| Bytes.AndNotBits | User/enc28j60/lowlayer/inc/enc28j60_ll.h:56-64 | register and not mask, bit by bit |
| Bytes.ClearAfterSet | User/enc28j60/lowlayer/inc/enc28j60_ll.h:48-64 | clearing after setting leaves what was outside the mask, and the other way round |
| BitFields.DecrementAtOnce | User/enc28j60/interface/src/enc28j60.c:67-71 | the bit field command the code plans for PKTDEC does, down to the bytes on the bus, what its read and write back do now, whatever arrives in between |
| BitFields.SetDuringTransmission | User/enc28j60/lowlayer/src/enc28j60_ll.c:304-314 | bits of ECON1 set by that command leave a transmission alone |
| BitFields.StaleCopyRestarts | User/enc28j60/interface/src/enc28j60.c:115-130 | a copy of ECON1 read during a transmission and written back after it sends the packet again: the reason to wait first |
| BufferAccess.WriteBuf | User/enc28j60/lowlayer/src/enc28j60_ll.c:282-291 | the bytes follow the opcode 0x7a on the bus; the pointer moves by exactly their number; if they fit they lie from EWRPT on in order and nothing else was disturbed; while reception is off they may go around the end of the memory |
| BufferAccess.LaidMeaning | User/enc28j60/lowlayer/src/enc28j60_ll.c:287-289 | each byte written lies where the pointer was, unless a later one came around to the same place |
| BufferAccess.LoopEndsIffShort | User/enc28j60/lowlayer/src/enc28j60_ll.c:287 | the sixteen-bit index reaches the length if and only if the length is below 0x8000 |
| BufferAccess.ReadBuf | User/enc28j60/lowlayer/src/enc28j60_ll.c:293-302 | the opcode 0x3a and as many bytes 0xff are clocked out; from wherever ERDPT is, the pointer makes exactly as many ring steps as bytes are read, and every byte the chip leaves alone comes as it lay there when reading began, whatever arrives meanwhile |
| BufferAccess.SteadyStays | User/enc28j60/lowlayer/src/enc28j60_ll.c:293-302 | which bytes these are: all of them while reception is off, those of the transmit area, and header and data of every frame not taken yet |
| BufferAccess.ReadsFrame | User/enc28j60/lowlayer/src/enc28j60_ll.c:297-300 | read from its start or from inside it, the oldest frame comes as its header and data in order, through the wrap of the ring |
| BufferAccess.RestoredKeepsRing | User/enc28j60/lowlayer/src/enc28j60_ll.c:287-289 | bytes written in the transmit area leave every unread frame as it is |
| BringUp.Init | User/enc28j60/interface/src/enc28j60.c:11-33 | from any chip state between two commands the driver is ready: ring empty and configured, AUTOINC and RXEN set, cache right, every register as `Initialised` says, with or without the self-test; the last two bytes on the bus are 0x5f and 0x07, the write to ECON1 that enables reception with bank 3 selected |
| BringUp.LlInit | User/enc28j60/lowlayer/src/enc28j60_ll.c:328-428 | from any chip state, the registers afterwards, MIRD and those of the PHY included, are a function of the reset values and the station address, whether or not the self-test ran |
| BringUp.InitMeaning | User/enc28j60/lowlayer/src/enc28j60_ll.c:344-412 | that function: ring bounds 0 and 0x17ff and ERXRDPT at 0x17ff, the six address bytes in their six registers, the bytes of frame length and gap, filter and MAC bits, and no other control register |
| BringUp.InitialRing | User/enc28j60/lowlayer/src/enc28j60_ll.c:342-348 | an initialised chip has an empty ring, whatever was received before |
| BringUp.Macon1Bits | User/enc28j60/lowlayer/src/enc28j60_ll.c:372-375 | MARXEN, TXPAUS and RXPAUS are set and no other bit changes |
| BringUp.Macon3Bits | User/enc28j60/lowlayer/src/enc28j60_ll.c:384-388 | the padding mode is 1, three bits are set and the two others do not change |
| BringUp.SelfTest | User/enc28j60/lowlayer/src/enc28j60_ll.c:8-126 | the test never fails on a conforming chip; every register has its reset value afterwards, and of the memory exactly the four bytes from 0x1000 on have changed |
| BringUp.TryPhy | User/enc28j60/lowlayer/src/enc28j60_ll.c:68-70 | any PHY register written and read back gives the value written |
| BringUp.TryMemory | User/enc28j60/lowlayer/src/enc28j60_ll.c:87-105 | the bytes written to the buffer memory are read back and lie there |
| BringUp.SoftReset | User/enc28j60/lowlayer/src/enc28j60_ll.c:129-134 | the byte 0xff resets the chip; that selects bank 0 behind the cache's back, which stays right only because it was unknown or 0 |
| BringUp.AwaitClock | User/enc28j60/lowlayer/src/enc28j60_ll.c:364-367 | polling ends with the clock ready |
| BringUp.SetAutoinc | User/enc28j60/lowlayer/src/enc28j60_ll.c:356-358 | AUTOINC is set and nothing else; on the bus ECON2 is read and written back or'ed with 128 |
| BringUp.InitPhy | User/enc28j60/lowlayer/src/enc28j60_ll.c:414-417 | the bit of weight 128 of PHCON1, which the struct names PDPXMD, is set and no other; the write finds bank 2 selected because the read left it so |
| BringUp.EnableReception | User/enc28j60/lowlayer/src/enc28j60_ll.c:419-422 | RXEN is set in ECON1 and nothing else; on the bus ECON1 is read and written back or'ed with 4 |
| Numbers.Itoa | User/lwip/src/core/def.c:221-262 | the buffer holds the decimal text and a NUL if both fit, and the empty string if not, the text being that of `Writes`: numerals from "0123456789" weighted with powers of ten, without superfluous zeros, behind a minus sign if the number is negative; nothing behind the buffer is written |
| Numbers.DecimalWrites | User/lwip/src/core/def.c:236-248 | the text printed is the one `Writes` describes, for every number |
| Numbers.PrintedReadsBack | User/lwip/src/core/def.c:215-220 | what the routine leaves is a string which, read back, is the number if its text fitted, and empty otherwise |
| Numbers.DecimalParses | User/lwip/src/core/def.c:236-248 | the decimal text of a number parses to that number |
| Numbers.ParsedIsDecimal | User/lwip/src/core/def.c:236-258 | every text of a number without superfluous zeros is the one printed for it |
| Strings.Strnstr | User/lwip/src/core/def.c:104-118 | the least index at which the token lies within the first n characters, none if and only if there is none |
| Strings.Strnistr | User/lwip/src/core/def.c:127-141 | the same up to ASCII case |
| Strings.Stricmp | User/lwip/src/core/def.c:150-176 | 0 exactly if the strings are equal up to ASCII case, and otherwise 1 |
| Strings.Strnicmp | User/lwip/src/core/def.c:185-212 | 0 exactly if their first len characters, up to the NUL, are equal up to ASCII case |
| Strings.BoundedIffPositive | User/lwip/src/core/def.c:185-212 | for all strings: the function tells whether the first len characters agree up to case if and only if len is positive, or the strings agree as far as the counter reaches |
| Strings.CompareNothing | User/lwip/src/core/def.c:209-210 | an input with length 0 for which it does not |
| Strings.AlikeIsLower | User/lwip/src/core/def.c:158-173 | the test with the bit 0x20, of which only one side is checked for a letter, is exactly equality up to ASCII case |
| Strings.AlikeEquivalence | User/lwip/src/core/def.c:158-173 | hence it is symmetric and transitive |
| Strings.LowerMeaning | User/lwip/src/core/def.c:158-173 | up to ASCII case means that A to Z become a to z and no other character changes |
| Strings.FoldedMeaning | User/lwip/src/core/def.c:185-212 | which characters are compared: those before the NUL, at most the given number, each in lower case |
| Strings.SameForIsPrefix | User/lwip/src/core/def.c:113 | strncmp over the token's length tests whether the token is a prefix |
| Nvic.WidthsSum | CMSIS/core_cm3.h:1640-1641 | the widths of the two fields sum to four in every group |
| Nvic.FieldsOfByte | CMSIS/core_cm3.h:1634-1647 | in the stored byte, the code in its upper half, group g has the preemption field above bit g and the subpriority in bit g and below |
| Nvic.DecodeEncode | CMSIS/core_cm3.h:1634-1676 | decoding an encoded priority gives both fields back, cut to their widths |
| Nvic.EncodeDecode | CMSIS/core_cm3.h:1634-1676 | encoding a decoded value gives its four implemented bits back |
| Nvic.OrderKept | CMSIS/core_cm3.h:1634-1647 | priorities that fit are ordered as their codes are, lexicographically, and different ones have different codes |
| Nvic.Registers.SetPriority | CMSIS/core_cm3.h:1586-1592 | the four bits are stored in the upper half of IP[n], or of SHP[n + 12] for a core interrupt, and no other byte of either array changes |
| Nvic.Registers.GetPriority | CMSIS/core_cm3.h:1609-1616 | the upper half of IP[n], or of SHP[n + 12] for a core interrupt |
| Nvic.SetThenGet | CMSIS/core_cm3.h:1586-1616 | two interrupts set and fetched again have each its own priority, cut to four bits, core and external interrupts alike |
| Nvic.StoreAndFetch | CMSIS/core_cm3.h:1586-1676 | a priority encoded, stored with SetPriority, fetched with GetPriority and decoded is what it was, cut to the widths, though another interrupt's was stored since |

## Left out

- `enc28j60_hw_send_data_16b` and `enc28j60_read_payload`: nothing calls them.
- SPI, GPIO, clock and UART registers of the microcontroller, the logging, and the delay loop of 200 `nop`: a byte is
  exchanged, the select line moves, time passes.
- DMA, interrupts, wake-up, collisions and aborted transmissions of the chip, and PHY status registers that change by
  themselves: the driver uses none of them.
- Transmit and receive errors reported in the status words: the driver ignores them, and so does the model.
- `pbuf_alloc`, `pbuf_take`, `pbuf_free`, `netif.input` and `sys_check_timeouts`: their implementations are not part of this
  model; they appear through the contracts of `Stack`. A pbuf chain is a value, so sharing and reference counts are not
  captured; a chain of more than one packet (a queue) is excluded, as pbuf.h does for the invariant of tot_len.
- `lwip_htons`, `lwip_htonl` and `lwip_memcmp_consttime`: they would only add easy members.
- Interrupt enabling and the other register accessors of core_cm3.h.
- Transmission.SendPacket: requires a packet of at least one byte; with none, ETXND lies before ETXST.
- BitFields.ChangeField: requires that a bit field command on ECON1 spares the bank select bits; nothing calls the
  functions, and the cached bank would be wrong otherwise.
- Registers.WriteControlReg: requires that a write of ECON1 names the bank that is selected, as every caller does.
- Numbers.Itoa: requires a number above the least int, whose negation C does not define.
- PhyAccess.ReadPhyReg: requires that no transmission is under way, because it switches banks.
- PhyAccess.WritePhyReg: requires that no transmission is under way, because polling MISTAT switches banks.
- BufferAccess.WriteBuf: says nothing of the memory when bytes go around its end while frames may arrive, since they
  would land in the receive buffer; every caller stays within the transmit area.
