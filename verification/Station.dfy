/** User/core/src/main.c: the network interface between the driver and the IP stack, and the main loop. */
module Station {
  import opened Bytes
  import opened Options
  import opened RegisterMap
  import opened ChipModel
  import opened RxRing
  import opened Device
  import opened Interface
  import opened Transmission

  // ---------- Sending ----------

  /** A packet of the stack: a chain of buffers. */
  datatype Pbuf = Null | Pbuf(payload: seq<byte>, len: word, totLen: word, next: Pbuf)

  function TotLen(p: Pbuf): nat {
    if p.Null? then 0 else p.totLen
  }

  /** The invariant of a chain that is one packet (User/lwip/inc/lwip/pbuf.h). */
  predicate ValidChain(p: Pbuf) {
    p.Pbuf? ==> p.len as int <= |p.payload| && p.totLen as int == p.len + TotLen(p.next) && ValidChain(p.next)
  }

  function Flatten(p: Pbuf): seq<byte>
    requires ValidChain(p)
  {
    if p.Null? then [] else p.payload[..p.len] + Flatten(p.next)
  }

  lemma {:induction false} FlattenLength(p: Pbuf)
    requires ValidChain(p)
    ensures |Flatten(p)| == TotLen(p)
  {
    if p.Pbuf? {
      FlattenLength(p.next);
    }
  }

  /** A packet within the MTU of 1500 and the link header of 14 bytes fits, with control byte and status vector. */
  lemma EthernetFits(p: Pbuf)
    requires ValidChain(p) && TotLen(p) <= 1500 + 14
    ensures FitsTxArea(1 + TotLen(p)) && 0x1800 + 1 + |Flatten(p)| + 7 <= 0x2000
  {
    FlattenLength(p);
  }

  /** What goes on the wire for a chain: the per-packet control byte, then the payloads. */
  function Packet(p: Pbuf): seq<byte>
    requires ValidChain(p)
  {
    [0] + Flatten(p)
  }

  /** `q` is one of the buffers of the chain `p`. */
  predicate Within(q: Pbuf, p: Pbuf) {
    q.Pbuf? && p.Pbuf? && (q == p || Within(q, p.next))
  }

  /** The payload of each buffer lies where its own tot_len says, counted from the end of the chain. */
  lemma {:induction false} FlattenPlace(p: Pbuf, q: Pbuf, i: nat)
    requires ValidChain(p) && Within(q, p) && i < q.len
    ensures i < |q.payload| && 0 <= TotLen(p) - q.totLen + i < |Flatten(p)|
    ensures Flatten(p)[TotLen(p) - q.totLen + i] == q.payload[i]
  {
    if q == p {
      FlattenLength(p);
    } else {
      FlattenPlace(p.next, q, i);
    }
  }

  /** The byte `i` of the buffer `q` is in the packet, behind the control byte and the buffers before. */
  predicate InPlace(packet: seq<byte>, p: Pbuf, q: Pbuf, i: nat)
    requires q.Pbuf?
  {
    var k := 1 + TotLen(p) - q.totLen + i;
    i < |q.payload| && 1 <= k < |packet| && packet[k] == q.payload[i]
  }

  /** A packet for this chain: the control byte 0, and behind it every byte of every buffer in its place. */
  ghost predicate Carries(packet: seq<byte>, p: Pbuf) {
    && |packet| == 1 + TotLen(p) && packet[0] == 0
    && forall q: Pbuf, i: nat :: Within(q, p) && i < q.len ==> InPlace(packet, p, q, i)
  }

  lemma PacketCarries(p: Pbuf)
    requires ValidChain(p)
    ensures Carries(Packet(p), p)
  {
    hide Flatten, ValidChain;
    FlattenLength(p);
    forall q: Pbuf, i: nat | Within(q, p) && i < q.len ensures InPlace(Packet(p), p, q, i) {
      FlattenPlace(p, q, i);
    }
  }

  lemma PacketStarts(p: Pbuf)
    requires ValidChain(p)
    ensures Packet(p) == [0] + Flatten(p) && |Packet(p)| == 1 + |Flatten(p)|
  {
  }

  lemma FinishOutput(c: Chip, c1: Chip, d: Chip, pieces: seq<byte>)
    requires 0 < |pieces| && FitsTxArea(|pieces|)
    requires c1.sent == c.sent && CellsKept(c, c1, {2, 3}) && Pointer(c1.cells, 2) == TX_START + |pieces|
    requires c1.mem[TX_START..TX_START + |pieces|] == pieces && CellsKept(c1, d, {4, 5, 6, 7})
    requires var last := TX_START + |pieces| - 1;
             && d.sent == c1.sent + [pieces] && TxUpTo(d, last) == pieces
             && Pointer(d.cells, 4) == TX_START && Pointer(d.cells, 6) == last
    ensures Transmitted(c, d, pieces)
  {
    hide Pointer;
    TransmittedBy(c, c1, d, pieces);
  }

  /**
   low_level_output: the chain goes out as one packet, exactly as SendPacket would send the control byte and the
   payloads from a single buffer.
   */
  method LowLevelOutput(dev: Enc28j60, p: Pbuf)
    requires Ready(dev) && ValidChain(p) && FitsTxArea(1 + TotLen(p))
    modifies dev`bank, dev`txBuffPtr, dev.io
    ensures Ready(dev)
    ensures RxSideKept(old(dev.io.chip), dev.io.chip)
    ensures |Packet(p)| == 1 + TotLen(p) && Transmitted(old(dev.io.chip), dev.io.chip, Packet(p))
    ensures |dev.io.chip.sent| == |old(dev.io.chip).sent| + 1
    ensures var packet := dev.io.chip.sent[|old(dev.io.chip).sent|];
            && |packet| == 1 + TotLen(p) && packet[0] == 0 && dev.io.chip.mem[0x1800..0x1800 + |packet|] == packet
            && forall q: Pbuf, i: nat :: Within(q, p) && i < q.len ==> InPlace(packet, p, q, i)
  {
    hide Ready, Pointer, RxSideKept, CellsKept, Transmitted, TxUpTo, Packet, Within, InPlace;
    PacketStarts(p);
    FlattenLength(p);
    ghost var c := dev.io.chip;
    PrepareToTx(dev);
    var control := 0;
    WriteToTx(dev, [control], []);
    ghost var pieces := [0];
    var q := p;
    while q != Null
      invariant Ready(dev) && ValidChain(q) && Collected(dev, pieces) && 0 < |pieces|
      invariant pieces + Flatten(q) == Packet(p)
      invariant RxSideKept(c, dev.io.chip) && dev.io.chip.sent == c.sent
      invariant CellsKept(c, dev.io.chip, {2, 3}) && Pointer(dev.io.chip.cells, 2) == TX_START + |pieces|
      decreases q
    {
      ghost var d := dev.io.chip;
      FlattenLength(q);
      ConcatAssociates(pieces, q.payload[..q.len], Flatten(q.next));
      WriteToTx(dev, q.payload[..q.len], pieces);
      RxSideTransitive(c, d, dev.io.chip);
      CellsKeptTransitive(c, d, dev.io.chip, {2, 3});
      pieces := pieces + q.payload[..q.len];
      q := q.next;
    }
    ghost var c1 := dev.io.chip;
    assert pieces == Packet(p);
    ReadyToSend(dev, pieces);
    RxSideTransitive(c, c1, dev.io.chip);
    FinishOutput(c, c1, dev.io.chip, pieces);
    OutputPlaced(c, dev.io.chip, p);
  }

  lemma OutputPlaced(c: Chip, d: Chip, p: Pbuf)
    requires ValidChain(p) && FitsTxArea(1 + TotLen(p)) && |Packet(p)| == 1 + TotLen(p)
    requires Transmitted(c, d, Packet(p))
    ensures |d.sent| == |c.sent| + 1
    ensures var packet := d.sent[|c.sent|];
            && |packet| == 1 + TotLen(p) && packet[0] == 0 && d.mem[0x1800..0x1800 + |packet|] == packet
            && forall q: Pbuf, i: nat :: Within(q, p) && i < q.len ==> InPlace(packet, p, q, i)
  {
    hide Packet, ValidChain, Transmitted;
    TransmittedSent(c, d, Packet(p));
    PacketCarries(p);
  }

  lemma CellsKeptTransitive(c: Chip, d: Chip, e: Chip, touched: set<int>)
    requires CellsKept(c, d, touched) && CellsKept(d, e, touched)
    ensures CellsKept(c, e, touched)
  {
  }

  // ---------- The stack ----------

  /** What can be sent: packets, not queues of packets, of Ethernet size. */
  predicate Sendable(chains: seq<Pbuf>) {
    forall i :: 0 <= i < |chains| ==> ValidChain(chains[i]) && FitsTxArea(1 + TotLen(chains[i]))
  }

  function Packets(chains: seq<Pbuf>): seq<seq<byte>>
    requires Sendable(chains)
  {
    if chains == [] then [] else Packets(chains[..|chains| - 1]) + [Packet(chains[|chains| - 1])]
  }

  /** All registers are as they were, but for buffer pointers, ERXRDPT, the bank and TXRTS. */
  predicate ConfigKept(c: Chip, d: Chip) {
    && CellsKept(c, d, {0, 1, 2, 3, 4, 5, 6, 7, 12, 13}) && d.phy == c.phy && d.econ2 == c.econ2 && d.rom == c.rom
    && RxEnabled(d) == RxEnabled(c) && d.econ1.upper == c.econ1.upper
  }

  lemma ConfigKeptTransitive(c: Chip, d: Chip, e: Chip)
    requires ConfigKept(c, d) && ConfigKept(d, e)
    ensures ConfigKept(c, e)
  {
    CellsKeptTransitive(c, d, e, {0, 1, 2, 3, 4, 5, 6, 7, 12, 13});
    hide CellsKept;
  }

  lemma SentConfigKept(c: Chip, d: Chip, packet: seq<byte>)
    requires 0 < |packet| && FitsTxArea(|packet|) && Transmitted(c, d, packet) && RxSideKept(c, d)
    ensures ConfigKept(c, d)
  {
    hide Pointer;
  }

  lemma ReceivedConfigKept(c: Chip, d: Chip)
    requires TxSideKept(c, d) && CellsKept(c, d, {0, 1, 12, 13})
    ensures ConfigKept(c, d)
  {
  }

  /** From `c` to `d` exactly the packets of these chains were sent, in order. */
  ghost predicate SentBy(c: Chip, d: Chip, chains: seq<Pbuf>) {
    Sendable(chains) && d.sent == c.sent + Packets(chains)
  }

  lemma SentByTransitive(c: Chip, d: Chip, e: Chip, a: seq<Pbuf>, b: seq<Pbuf>)
    requires SentBy(c, d, a) && SentBy(d, e, b)
    ensures SentBy(c, e, a + b)
  {
    hide Sendable, Packets;
    PacketsConcat(a, b);
    ConcatAssociates(c.sent, Packets(a), Packets(b));
  }

  lemma {:induction false} PacketsAt(chains: seq<Pbuf>, i: nat)
    requires Sendable(chains) && i < |chains|
    ensures |Packets(chains)| == |chains| && Packets(chains)[i] == Packet(chains[i])
    decreases |chains|
  {
    hide Packet, ValidChain, TotLen;
    var n := |chains| - 1;
    if i < n {
      PacketsAt(chains[..n], i);
    } else if n > 0 {
      PacketsAt(chains[..n], 0);
    }
  }

  /** One packet a chain, in order, each carrying the chain's payloads. */
  lemma SentMeaning(c: Chip, d: Chip, chains: seq<Pbuf>)
    requires SentBy(c, d, chains)
    ensures c.sent <= d.sent && |d.sent| == |c.sent| + |chains|
    ensures forall i :: 0 <= i < |chains| ==> Carries(d.sent[|c.sent| + i], chains[i])
  {
    hide Packets, Packet, ValidChain, TotLen, Carries;
    if chains == [] {
      NoPackets(chains);
    } else {
      PacketsAt(chains, 0);
    }
    forall i | 0 <= i < |chains| ensures Carries(d.sent[|c.sent| + i], chains[i]) {
      PacketsAt(chains, i);
      PacketCarries(chains[i]);
    }
  }

  lemma SentNothing(c: Chip, d: Chip)
    requires d.sent == c.sent
    ensures SentBy(c, d, [])
  {
  }

  /**
   The decisions of the IP stack, all arbitrary: whether the pool has a buffer for the k-th request, whether the k-th
   packet handed over is accepted, what is sent in reply to it, and what is sent by the k-th check of the timers.
   */
  datatype Choices = Choices(
    grants: nat -> bool, accepts: nat -> bool, replies: nat -> seq<Pbuf>, timers: nat -> seq<Pbuf>)

  ghost predicate SendsPackets(choices: Choices) {
    forall k :: Sendable(choices.replies(k)) && Sendable(choices.timers(k))
  }

  /** How many requests, packets and checks there have been. */
  datatype Counters = Counters(allocs: nat, inputs: nat, ticks: nat)

  /** What has happened to the stack: its counters, what was handed to it, and what it asked to send, in order. */
  datatype Record = Record(counts: Counters, handed: seq<seq<byte>>, requested: seq<Pbuf>)

  /** The IP stack as the driver meets it: buffer pool, input function, timers. */
  class Stack {
    const choices: Choices
    var allocs: nat
    var inputs: nat
    var ticks: nat
    /** Receive buffers owned by the caller of the stack. */
    var held: map<nat, seq<byte>>
    /** Everything handed to netif.input, and everything the stack asked to send, in order. */
    var handed: seq<seq<byte>>
    var requested: seq<Pbuf>
    /** How many frames the chip had stored whenever the stack was done with a task of its own and returned. */
    ghost var seen: seq<nat>

    constructor (choices: Choices)
      requires SendsPackets(choices)
      ensures Valid() && held == map[] && handed == [] && requested == [] && this.choices == choices
      ensures Counts() == Counters(0, 0, 0) && seen == []
    {
      this.choices := choices;
      allocs, inputs, ticks, held, handed, requested, seen := 0, 0, 0, map[], [], [], [];
    }

    function Counts(): Counters
      reads this`allocs, this`inputs, this`ticks
    {
      Counters(allocs, inputs, ticks)
    }

    function Story(): Record
      reads this`allocs, this`inputs, this`ticks, this`handed, this`requested
    {
      Record(Counts(), handed, requested)
    }

    ghost predicate Valid()
      reads this`held, this`allocs
    {
      && (forall id :: id in held ==> id < allocs)
      && SendsPackets(choices)
    }

    method PbufAlloc(len: word) returns (p: Option<nat>)
      requires Valid()
      modifies this`allocs, this`held
      ensures Valid()
      ensures allocs == old(allocs) + 1
      ensures p == if choices.grants(old(allocs)) then Some(old(allocs)) else None
      ensures p.None? ==> held == old(held)
      ensures p.Some? ==> p.value !in old(held) && held.Keys == old(held).Keys + {p.value} && |held[p.value]| == len
      ensures forall id :: id in old(held) ==> id in held && held[id] == old(held)[id]
    {
      p := None;
      if choices.grants(allocs) {
        p := Some(allocs);
        held := held[allocs := seq(len, _ => 0)];
      }
      allocs := allocs + 1;
    }

    method PbufTake(p: nat, data: seq<byte>)
      requires Valid() && p in held && |data| <= |held[p]|
      modifies this`held
      ensures Valid() && held == old(held)[p := data + old(held)[p][|data|..]]
    {
      held := held[p := data + held[p][|data|..]];
    }

    method PbufFree(p: nat)
      requires Valid() && p in held
      modifies this`held
      ensures Valid() && held == old(held) - {p}
    {
      held := held - {p};
    }
  }

  lemma PacketsAppend(chains: seq<Pbuf>, p: Pbuf)
    requires Sendable(chains) && ValidChain(p) && FitsTxArea(1 + TotLen(p))
    ensures Sendable(chains + [p]) && Packets(chains + [p]) == Packets(chains) + [Packet(p)]
  {
    assert (chains + [p])[..|chains|] == chains;
  }

  /** One call of netif.linkoutput. */
  method LinkOutput(dev: Enc28j60, stack: Stack, p: Pbuf)
    requires Ready(dev) && ValidChain(p) && FitsTxArea(1 + TotLen(p))
    modifies dev`bank, dev`txBuffPtr, dev.io, stack`requested
    ensures Ready(dev) && RxSideKept(old(dev.io.chip), dev.io.chip) && ConfigKept(old(dev.io.chip), dev.io.chip)
    ensures stack.requested == old(stack.requested) + [p]
    ensures dev.io.chip.sent == old(dev.io.chip).sent + [Packet(p)]
  {
    hide Ring, RxSideKept, CellsKept, ConfigKept, Packet, Transmitted;
    ghost var c := dev.io.chip;
    LowLevelOutput(dev, p);
    TransmittedSent(c, dev.io.chip, Packet(p));
    SentConfigKept(c, dev.io.chip, Packet(p));
    stack.requested := stack.requested + [p];
  }

  /** The stack sends: every chain goes through netif.linkoutput. */
  method SendAll(dev: Enc28j60, stack: Stack, chains: seq<Pbuf>)
    requires Ready(dev) && Sendable(chains)
    modifies dev`bank, dev`txBuffPtr, dev.io, stack`requested
    ensures Ready(dev) && RxSideKept(old(dev.io.chip), dev.io.chip) && ConfigKept(old(dev.io.chip), dev.io.chip)
    ensures stack.requested == old(stack.requested) + chains
    ensures SentBy(old(dev.io.chip), dev.io.chip, chains)
  {
    hide Ready, RxSideKept, ConfigKept, Packets, Packet, ValidChain, TotLen;
    ghost var c, before := dev.io.chip, stack.requested;
    ReadyKept(dev);
    NoPackets(chains);
    for i := 0 to |chains|
      invariant Ready(dev) && RxSideKept(c, dev.io.chip) && ConfigKept(c, dev.io.chip)
      invariant stack.requested == before + chains[..i]
      invariant dev.io.chip.sent == c.sent + Packets(chains[..i])
    {
      ghost var d := dev.io.chip;
      LinkOutput(dev, stack, chains[i]);
      RxSideTransitive(c, d, dev.io.chip);
      ConfigKeptTransitive(c, d, dev.io.chip);
      PacketsAppend(chains[..i], chains[i]);
      assert chains[..i + 1] == chains[..i] + [chains[i]];
    }
    assert chains[..|chains|] == chains;
  }

  lemma ReadyKept(dev: Enc28j60)
    requires Ready(dev)
    ensures RxSideKept(dev.io.chip, dev.io.chip) && ConfigKept(dev.io.chip, dev.io.chip)
  {
    hide Ring;
  }

  lemma NoPackets(chains: seq<Pbuf>)
    ensures chains[..0] == [] && Packets([]) == []
  {
  }

  lemma TransmittedSent(c: Chip, d: Chip, packet: seq<byte>)
    requires 0 < |packet| && FitsTxArea(|packet|) && Transmitted(c, d, packet)
    ensures d.sent == c.sent + [packet] && d.mem[0x1800..0x1800 + |packet|] == packet
  {
    hide Pointer;
  }

  // ---------- Receiving ----------

  /** low_level_input: the oldest frame in a fresh buffer, if there is one, it is not empty, and a buffer is free. */
  method LowLevelInput(dev: Enc28j60, stack: Stack, buf: array<byte>) returns (p: Option<nat>)
    requires Ready(dev) && stack.Valid() && buf.Length < 0x10000
    modifies dev`bank, dev`header, dev`nextRxPacketPtr, dev`taken, dev.io, buf, stack`allocs, stack`held
    ensures Ready(dev) && stack.Valid()
    ensures old(dev.io.chip).log <= dev.io.chip.log && dev.io.chip.sent == old(dev.io.chip).sent
    ensures dev.io.chip.violations == old(dev.io.chip).violations && ConfigKept(old(dev.io.chip), dev.io.chip)
    ensures dev.taken == old(dev.taken) || (dev.taken == old(dev.taken) + 1 && old(dev.taken) < |dev.io.chip.log|)
    ensures old(dev.taken) < |old(dev.io.chip).log| ==> dev.taken == old(dev.taken) + 1
    ensures p.Some? <==>
              && dev.taken == old(dev.taken) + 1 && stack.choices.grants(old(stack.allocs))
              && Delivered(dev.io.chip.log[old(dev.taken)], buf.Length) != []
    ensures stack.allocs == old(stack.allocs) +
                              if dev.taken == old(dev.taken) + 1
                                 && Delivered(dev.io.chip.log[old(dev.taken)], buf.Length) != [] then 1 else 0
    ensures p.None? ==> stack.held == old(stack.held)
    ensures p.Some? ==>
              && p.value !in old(stack.held)
              && stack.held == old(stack.held)[p.value := Delivered(dev.io.chip.log[old(dev.taken)], buf.Length)]
  {
    hide Ready, TxSideKept, CellsKept, ConfigKept, Delivered;
    ghost var c := dev.io.chip;
    var len := ReceivePacket(dev, buf, buf.Length);
    TxSideSent(c, dev.io.chip);
    ReceivedConfigKept(c, dev.io.chip);
    if len == 0 {
      return None;
    }
    p := stack.PbufAlloc(len);
    if p.None? {
      return None;
    }
    ghost var before := stack.held;
    assert buf[..len] + before[p.value][|buf[..len]|..] == buf[..len];
    stack.PbufTake(p.value, buf[..len]);
    assert stack.held == old(stack.held)[p.value := buf[..len]];
  }

  lemma TxSideSent(c: Chip, d: Chip)
    requires TxSideKept(c, d)
    ensures d.sent == c.sent && d.violations == c.violations
  {
  }

  /** The stack's input function: it takes the buffer over or refuses it, and may send meanwhile. */
  method NetifInput(dev: Enc28j60, stack: Stack, p: nat) returns (ok: bool)
    requires Ready(dev) && stack.Valid() && p in stack.held
    modifies dev`bank, dev`txBuffPtr, dev.io, stack`inputs, stack`held, stack`handed, stack`requested
    ensures Ready(dev) && stack.Valid()
    ensures RxSideKept(old(dev.io.chip), dev.io.chip) && ConfigKept(old(dev.io.chip), dev.io.chip)
    ensures ok == stack.choices.accepts(old(stack.inputs)) && stack.inputs == old(stack.inputs) + 1
    ensures stack.held == if ok then old(stack.held) - {p} else old(stack.held)
    ensures stack.handed == old(stack.handed) + [old(stack.held)[p]]
    ensures stack.requested == old(stack.requested) + stack.choices.replies(old(stack.inputs))
    ensures SentBy(old(dev.io.chip), dev.io.chip, stack.choices.replies(old(stack.inputs)))
  {
    hide Ready, RxSideKept, ConfigKept, Packets;
    stack.handed := stack.handed + [stack.held[p]];
    ok := stack.choices.accepts(stack.inputs);
    if ok {
      stack.held := stack.held - {p};
    }
    SendAll(dev, stack, stack.choices.replies(stack.inputs));
    stack.inputs := stack.inputs + 1;
  }

  /** sys_check_timeouts: due timers run, and may send. */
  method CheckTimeouts(dev: Enc28j60, stack: Stack)
    requires Ready(dev) && stack.Valid()
    modifies dev`bank, dev`txBuffPtr, dev.io, stack`ticks, stack`requested, stack`seen
    ensures Ready(dev) && stack.ticks == old(stack.ticks) + 1 && stack.seen == old(stack.seen) + [|dev.io.chip.log|]
    ensures RxSideKept(old(dev.io.chip), dev.io.chip) && ConfigKept(old(dev.io.chip), dev.io.chip)
    ensures stack.requested == old(stack.requested) + stack.choices.timers(old(stack.ticks))
    ensures SentBy(old(dev.io.chip), dev.io.chip, stack.choices.timers(old(stack.ticks)))
  {
    hide Ready, RxSideKept, ConfigKept, Packets;
    SendAll(dev, stack, stack.choices.timers(stack.ticks));
    stack.ticks := stack.ticks + 1;
    stack.seen := stack.seen + [|dev.io.chip.log|];
  }

  /** The interface is added and set up: the stack may send before the main loop begins. */
  method SetUp(dev: Enc28j60, stack: Stack, greeting: seq<Pbuf>)
    requires Ready(dev) && Sendable(greeting)
    modifies dev`bank, dev`txBuffPtr, dev.io, stack`requested, stack`seen
    ensures Ready(dev) && stack.seen == old(stack.seen) + [|dev.io.chip.log|]
    ensures RxSideKept(old(dev.io.chip), dev.io.chip) && ConfigKept(old(dev.io.chip), dev.io.chip)
    ensures stack.requested == old(stack.requested) + greeting
    ensures SentBy(old(dev.io.chip), dev.io.chip, greeting)
  {
    hide Ready, RxSideKept, ConfigKept, Packets;
    SendAll(dev, stack, greeting);
    stack.seen := stack.seen + [|dev.io.chip.log|];
  }

  lemma {:induction false} PacketsConcat(a: seq<Pbuf>, b: seq<Pbuf>)
    requires Sendable(a) && Sendable(b)
    ensures Sendable(a + b) && Packets(a + b) == Packets(a) + Packets(b)
    decreases |b|
  {
    if b == [] {
      assert a + b == a;
    } else {
      var n := |b| - 1;
      assert b == b[..n] + [b[n]] && a + b == (a + b[..n]) + [b[n]];
      PacketsConcat(a, b[..n]);
      hide Packet, Packets, ValidChain, TotLen;
      PacketsAppend(b[..n], b[n]);
      PacketsAppend(a + b[..n], b[n]);
    }
  }

  /** A received buffer is handed to the stack, and freed if the stack refuses it. */
  method HandOver(dev: Enc28j60, stack: Stack, p: nat, ghost held: map<nat, seq<byte>>)
    requires Ready(dev) && stack.Valid() && p !in held && p in stack.held && stack.held == held[p := stack.held[p]]
    modifies dev`bank, dev`txBuffPtr, dev.io, stack`inputs, stack`held, stack`handed, stack`requested
    ensures Ready(dev) && stack.Valid() && stack.held == held && stack.inputs == old(stack.inputs) + 1
    ensures old(dev.io.chip).log <= dev.io.chip.log && ConfigKept(old(dev.io.chip), dev.io.chip)
    ensures stack.handed == old(stack.handed) + [old(stack.held)[p]]
    ensures stack.requested == old(stack.requested) + stack.choices.replies(old(stack.inputs))
    ensures SentBy(old(dev.io.chip), dev.io.chip, stack.choices.replies(old(stack.inputs)))
  {
    hide Ready, RxSideKept, ConfigKept, Packets, Sendable;
    ghost var c := dev.io.chip;
    var ok := NetifInput(dev, stack, p);
    RxSideFacts(c, dev.io.chip);
    if !ok {
      stack.PbufFree(p);
    }
    assert stack.held == held;
  }
}
