/** User/core/src/main.c: the main loop, and the program from reset on. */
module Program {
  import opened Bytes
  import opened Options
  import opened ChipModel
  import opened Trace
  import opened RxRing
  import opened Device
  import opened Interface
  import opened Transmission
  import opened BringUp
  import opened Station
  import opened Account

  const BUFFER_SIZE := 1520

  /** What the stack asks to send in a turn. */
  function Asked(choices: Choices, k: Counters, handed: bool): seq<Pbuf> {
    (if handed then choices.replies(k.inputs) else []) + choices.timers(k.ticks)
  }

  /** What a received buffer or none means for the turn. */
  lemma TurnWith(choices: Choices, k: Counters, event: Option<Frame>, maxlen: nat)
    ensures var granted := event.Some? && choices.grants(k.allocs) && Delivered(event.value, maxlen) != [];
            var asked := event.Some? && Delivered(event.value, maxlen) != [];
            TurnOf(choices, k, event, maxlen)
            == Outcome(Counters(k.allocs + (if asked then 1 else 0), k.inputs + (if granted then 1 else 0),
                                k.ticks + 1),
                       if granted then [Delivered(event.value, maxlen)] else [],
                       Asked(choices, k, granted))
  {
    hide Delivered;
    assert [] + choices.timers(k.ticks) == choices.timers(k.ticks);
  }

  /** The same for the record: `k1` are the counters once the buffer has been asked for. */
  lemma TurnStory(choices: Choices, r: Record, event: Option<Frame>, maxlen: nat, granted: bool, k1: Counters)
    requires granted <==> event.Some? && choices.grants(r.counts.allocs) && Delivered(event.value, maxlen) != []
    requires var asked := if event.Some? && Delivered(event.value, maxlen) != [] then 1 else 0;
             k1 == r.counts.(allocs := r.counts.allocs + asked)
    ensures var turn := TurnOf(choices, r.counts, event, maxlen);
            && turn.out == Asked(choices, k1, granted)
            && Then(r, turn) == Record(k1.(inputs := k1.inputs + (if granted then 1 else 0), ticks := k1.ticks + 1),
                                       r.handed + (if granted then [Delivered(event.value, maxlen)] else []),
                                       r.requested + Asked(choices, k1, granted))
  {
    hide Delivered, TurnOf;
    TurnWith(choices, r.counts, event, maxlen);
  }

  lemma SameConfig(c: Chip)
    ensures ConfigKept(c, c)
  {
  }

  /** The second half of a turn: a received buffer goes to the stack, and the timers are checked. */
  method Serve(dev: Enc28j60, stack: Stack, p: Option<nat>, ghost held: map<nat, seq<byte>>)
    requires Ready(dev) && stack.Valid()
    requires if p.None? then stack.held == held
             else p.value !in held && p.value in stack.held && stack.held == held[p.value := stack.held[p.value]]
    modifies dev`bank, dev`txBuffPtr, dev.io
    modifies stack`inputs, stack`ticks, stack`held, stack`handed, stack`requested, stack`seen
    ensures Ready(dev) && stack.Valid() && stack.held == held
    ensures stack.seen == old(stack.seen) + [|dev.io.chip.log|]
    ensures old(dev.io.chip).log <= dev.io.chip.log && ConfigKept(old(dev.io.chip), dev.io.chip)
    ensures var k := old(stack.Counts());
            stack.Story() == Record(k.(inputs := k.inputs + (if p.Some? then 1 else 0), ticks := k.ticks + 1),
                                    old(stack.handed) + (if p.Some? then [old(stack.held)[p.value]] else []),
                                    old(stack.requested) + Asked(stack.choices, k, p.Some?))
    ensures SentBy(old(dev.io.chip), dev.io.chip, Asked(stack.choices, old(stack.Counts()), p.Some?))
  {
    hide Ready, RxSideKept, SentBy, ConfigKept, Stack.Valid;
    ghost var c, replies := dev.io.chip, [];
    SameConfig(c);
    SentNothing(c, c);
    if p != None {
      replies := stack.choices.replies(stack.inputs);
      HandOver(dev, stack, p.value, held);
    }
    ghost var c2, due := dev.io.chip, stack.choices.timers(stack.ticks);
    CheckTimeouts(dev, stack);
    RxSideFacts(c2, dev.io.chip);
    SentByTransitive(c, c2, dev.io.chip, replies, due);
    ConfigKeptTransitive(c, c2, dev.io.chip);
    ConcatAssociates(old(stack.requested), replies, due);
  }

  lemma ReadyTaken(dev: Enc28j60)
    requires Ready(dev)
    ensures dev.taken <= |dev.io.chip.log|
  {
    hide Ring;
    RingFacts(dev.io.chip, dev.nextRxPacketPtr, dev.taken, 0);
  }

  /** To what was handed over before, a frame's payload is added: all its data but the four bytes of CRC, if it fits. */
  ghost predicate PayloadAdded(before: seq<seq<byte>>, after: seq<seq<byte>>, data: seq<byte>, maxlen: nat) {
    && (0 < |data| <= 4 ==> after == before + [if |data| <= maxlen then data else data[..maxlen]])
    && forall payload: seq<byte>, crc: seq<byte> :: payload != [] && |crc| == 4 && data == payload + crc ==>
         after == before + [if |payload| <= maxlen then payload else payload[..maxlen]]
  }

  /** What a turn that consumed a frame with bytes hands over, if the pool grants a buffer. */
  lemma TurnHands(choices: Choices, r: Record, event: Option<Frame>, maxlen: nat)
    requires event.Some? && choices.grants(r.counts.allocs) && maxlen > 0
    ensures PayloadAdded(r.handed, Then(r, TurnOf(choices, r.counts, event, maxlen)).handed, event.value.data, maxlen)
  {
    hide Delivered;
    DeliveredPayload(event.value.data, event.value.status, maxlen);
  }

  /** One turn of the main loop: at most one frame, the oldest, is consumed, and the stack is served accordingly. */
  method Turn(dev: Enc28j60, stack: Stack, buf: array<byte>) returns (ghost event: Option<Frame>)
    requires Ready(dev) && stack.Valid() && buf.Length < 0x10000
    modifies dev, dev.io, buf, stack
    ensures Ready(dev) && stack.Valid() && stack.held == old(stack.held) && dev.since == old(dev.since)
    ensures stack.seen == old(stack.seen) + [|dev.io.chip.log|]
    ensures old(dev.io.chip).log <= dev.io.chip.log && ConfigKept(old(dev.io.chip), dev.io.chip)
    ensures match event {
              case None => dev.taken == old(dev.taken) == |old(dev.io.chip).log|
              case Some(f) =>
                && dev.taken == old(dev.taken) + 1 && old(dev.taken) < |dev.io.chip.log|
                && f == dev.io.chip.log[old(dev.taken)]
            }
    ensures var turn := TurnOf(stack.choices, old(stack.Counts()), event, buf.Length);
            stack.Story() == Then(old(stack.Story()), turn) && SentBy(old(dev.io.chip), dev.io.chip, turn.out)
    ensures event.Some? && stack.choices.grants(old(stack.allocs)) && buf.Length > 0 ==>
              PayloadAdded(old(stack.handed), stack.handed, event.value.data, buf.Length)
  {
    hide Ready, Delivered, TurnOf, Then, Asked, SentBy, ConfigKept, PayloadAdded, Stack.Valid;
    ReadyTaken(dev);
    ghost var c, r := dev.io.chip, stack.Story();
    var p := LowLevelInput(dev, stack, buf);
    ghost var c1 := dev.io.chip;
    event := if dev.taken == old(dev.taken) then None else Some(dev.io.chip.log[old(dev.taken)]);
    ghost var k1 := stack.Counts();
    TurnStory(stack.choices, r, event, buf.Length, p.Some?, k1);
    if event.Some? && stack.choices.grants(r.counts.allocs) && buf.Length > 0 {
      TurnHands(stack.choices, r, event, buf.Length);
    }
    Serve(dev, stack, p, old(stack.held));
    SentBySame(c, c1, dev.io.chip, Asked(stack.choices, k1, p.Some?));
    ConfigKeptTransitive(c, c1, dev.io.chip);
  }

  lemma SentBySame(c: Chip, c1: Chip, d: Chip, chains: seq<Pbuf>)
    requires c1.sent == c.sent && SentBy(c1, d, chains)
    ensures SentBy(c, d, chains)
  {
    hide Sendable, Packets;
  }

  /**
   How turns since the record `r0`, with `from` frames consumed before, have gone: the frames they consumed are the
   stored ones in order, no turn left one waiting, and the stack was served accordingly.
   */
  ghost predicate Gone(choices: Choices, maxlen: nat, r0: Record, from: nat,
                       d: Chip, r: Record, to: nat, events: seq<Option<Frame>>, begun: seq<nat>)
  {
    && from <= to <= |d.log| && Consumed(events) == d.log[from..to]
    && r == Then(r0, RunOf(choices, r0.counts, events, maxlen))
    && Prompt(events, begun, from) && begun[|events|] == |d.log|
  }

  /** From `c` to `d` exactly what these turns ask for was sent, and the chip is configured as before. */
  ghost predicate Served(choices: Choices, maxlen: nat, k: Counters, c: Chip, d: Chip, events: seq<Option<Frame>>) {
    c.log <= d.log && ConfigKept(c, d) && SentBy(c, d, RunOf(choices, k, events, maxlen).out)
  }

  lemma GoneNowhere(choices: Choices, maxlen: nat, c: Chip, r0: Record, from: nat)
    requires from <= |c.log|
    ensures Gone(choices, maxlen, r0, from, c, r0, from, [], [|c.log|])
    ensures Served(choices, maxlen, r0.counts, c, c, [])
  {
    SentNothing(c, c);
    assert c.log[from..from] == [];
  }

  lemma GoneOn(choices: Choices, maxlen: nat, r0: Record, from: nat,
               d: Chip, r: Record, to: nat, events: seq<Option<Frame>>, begun: seq<nat>,
               d': Chip, to': nat, event: Option<Frame>)
    requires Gone(choices, maxlen, r0, from, d, r, to, events, begun) && d.log <= d'.log
    requires match event
             case None => to' == to == |d.log|
             case Some(f) => to' == to + 1 && to < |d'.log| && f == d'.log[to]
    ensures Gone(choices, maxlen, r0, from, d', Then(r, TurnOf(choices, r.counts, event, maxlen)), to',
                 events + [event], begun + [|d'.log|])
  {
    hide TurnOf, RunOf, Consumed, Then, Prompt;
    ThenNext(choices, r0, r, events, event, maxlen);
    RunOfAppend(choices, r0.counts, events, event, maxlen);
    PromptLength(events, begun, from);
    PromptNext(events, begun, from, event, |d'.log|);
    assert d'.log[from..to] == d.log[from..to];
    if event.Some? {
      assert d'.log[from..to + 1] == d'.log[from..to] + [d'.log[to]];
    }
  }

  lemma PromptLength(events: seq<Option<Frame>>, begun: seq<nat>, from: nat)
    requires Prompt(events, begun, from)
    ensures |begun| == |events| + 1 && from <= begun[0]
  {
  }

  lemma ServedOn(choices: Choices, maxlen: nat, r0: Record, c: Chip, d: Chip, d': Chip, r: Record,
                 events: seq<Option<Frame>>, event: Option<Frame>)
    requires Served(choices, maxlen, r0.counts, c, d, events)
    requires r == Then(r0, RunOf(choices, r0.counts, events, maxlen))
    requires d.log <= d'.log && ConfigKept(d, d') && SentBy(d, d', TurnOf(choices, r.counts, event, maxlen).out)
    ensures Served(choices, maxlen, r0.counts, c, d', events + [event])
  {
    hide SentBy, TurnOf, RunOf, ConfigKept;
    ConfigKeptTransitive(c, d, d');
    ThenNext(choices, r0, r, events, event, maxlen);
    SentByTransitive(c, d, d', RunOf(choices, r0.counts, events, maxlen).out,
                     TurnOf(choices, r.counts, event, maxlen).out);
  }

  /**
   What turns amount to: the stack got the stored frames in order, each one once, but for those without bytes and those
   refused a buffer by the pool; each consumed frame is one of the three; and from any turn on, every turn consumed a
   frame, or else all that were stored when it began are consumed.
   */
  ghost predicate Accounted(choices: Choices, maxlen: nat, r0: Record, from: nat,
                            d: Chip, r: Record, to: nat, events: seq<Option<Frame>>, begun: seq<nat>)
  {
    && from <= to <= |d.log| && |r0.handed| <= |r.handed| && |begun| == |events| + 1
    && (var frames, a, given := d.log[from..to], r0.counts.allocs, |r.handed| - |r0.handed|;
        && r.handed == r0.handed + GivenOf(frames, choices.grants, a, maxlen)
        && to - from == given + |WithFate(frames, choices.grants, a, maxlen, NoBuffer)|
                        + |WithFate(frames, choices.grants, a, maxlen, Empty)|
        && r.counts == Counters(a + NonEmpty(frames, maxlen), r0.counts.inputs + given, r0.counts.ticks + |events|))
    && (forall i :: 0 <= i <= |events| ==>
          to - from - |Consumed(events[..i])| == |events| - i || to >= begun[i])
  }

  lemma RunAccounts(choices: Choices, maxlen: nat, r0: Record, from: nat,
                    d: Chip, r: Record, to: nat, events: seq<Option<Frame>>, begun: seq<nat>)
    requires Gone(choices, maxlen, r0, from, d, r, to, events, begun)
    ensures Accounted(choices, maxlen, r0, from, d, r, to, events, begun)
  {
    hide RunOf, Consumed, GivenOf, WithFate, NonEmpty, Prompt;
    RunDependsOnFrames(choices, r0.counts, events, maxlen);
    Conservation(d.log[from..to], choices.grants, r0.counts.allocs, maxlen);
    PromptLength(events, begun, from);
    forall i | 0 <= i <= |events|
      ensures to - from - |Consumed(events[..i])| == |events| - i || to >= begun[i]
    {
      PromptConsumes(events, begun, from, i);
    }
  }

  /** What has been added to a record that was `before`. */
  ghost function Since<T>(before: seq<T>, now: seq<T>): seq<T> {
    if |before| <= |now| then now[|before|..] else []
  }

  ghost function Between<T>(log: seq<T>, from: nat, to: nat): seq<T> {
    if from <= to <= |log| then log[from..to] else []
  }

  lemma SinceNext(before: seq<nat>, now: seq<nat>, n: nat)
    requires before <= now
    ensures before <= now + [n] && Since(before, now + [n]) == Since(before, now) + [n] && Since(before, before) == []
  {
  }

  /**
   The main loop, run for any number of turns: it has gone as `Gone`, `Served` and `Accounted` say, and no receive
   buffer is left over.
   */
  method MainLoop(dev: Enc28j60, stack: Stack, buf: array<byte>, turns: nat)
    returns (ghost events: seq<Option<Frame>>)
    requires Ready(dev) && stack.Valid() && buf.Length < 0x10000
    modifies dev, dev.io, buf, stack
    ensures Ready(dev) && stack.Valid() && stack.held == old(stack.held) && dev.since == old(dev.since)
    ensures |events| == turns && old(stack.seen) <= stack.seen
    ensures var begun := [|old(dev.io.chip).log|] + Since(old(stack.seen), stack.seen);
            && Gone(stack.choices, buf.Length, old(stack.Story()), old(dev.taken),
                    dev.io.chip, stack.Story(), dev.taken, events, begun)
            && Accounted(stack.choices, buf.Length, old(stack.Story()), old(dev.taken),
                         dev.io.chip, stack.Story(), dev.taken, events, begun)
    ensures Served(stack.choices, buf.Length, old(stack.Counts()), old(dev.io.chip), dev.io.chip, events)
  {
    hide Ready, Gone, Served, Accounted, ConfigKept, SentBy, Since, Stack.Valid;
    ReadyTaken(dev);
    ghost var c, r0, from, seen := dev.io.chip, stack.Story(), dev.taken, stack.seen;
    events := [];
    GoneNowhere(stack.choices, buf.Length, c, r0, from);
    SinceNext(seen, seen, 0);
    ghost var begun := [|c.log|];
    for i := 0 to turns
      invariant Ready(dev) && stack.Valid() && stack.held == old(stack.held) && dev.since == old(dev.since)
      invariant |events| == i && seen <= stack.seen && begun == [|c.log|] + Since(seen, stack.seen)
      invariant Gone(stack.choices, buf.Length, r0, from, dev.io.chip, stack.Story(), dev.taken, events, begun)
      invariant Served(stack.choices, buf.Length, r0.counts, c, dev.io.chip, events)
    {
      ghost var d, r, to, before := dev.io.chip, stack.Story(), dev.taken, stack.seen;
      ghost var event := Turn(dev, stack, buf);
      GoneOn(stack.choices, buf.Length, r0, from, d, r, to, events, begun, dev.io.chip, dev.taken, event);
      GoneRecord(stack.choices, buf.Length, r0, from, d, r, to, events, begun);
      ServedOn(stack.choices, buf.Length, r0, c, d, dev.io.chip, r, events, event);
      SinceNext(seen, before, |dev.io.chip.log|);
      ConcatAssociates([|c.log|], Since(seen, before), [|dev.io.chip.log|]);
      events, begun := events + [event], begun + [|dev.io.chip.log|];
    }
    RunAccounts(stack.choices, buf.Length, r0, from, dev.io.chip, stack.Story(), dev.taken, events, begun);
  }

  lemma GoneRecord(choices: Choices, maxlen: nat, r0: Record, from: nat,
                   d: Chip, r: Record, to: nat, events: seq<Option<Frame>>, begun: seq<nat>)
    requires Gone(choices, maxlen, r0, from, d, r, to, events, begun)
    ensures r == Then(r0, RunOf(choices, r0.counts, events, maxlen))
  {
    hide RunOf, Then, Prompt, Consumed;
  }

  /** Ring, station address, filter, MAC, PHY and pointer auto-increment are as initialisation set them. */
  predicate Configured(c: Chip, mac: MacAddress) {
    WordBitFits(c.rom.phy[0]);
    && RingConfigured(c) && AddressHeld(c.cells, mac) && ControlSet(c.cells, c.rom.cells)
    && c.phy == c.rom.phy[0 := SetBit(c.rom.phy[0], 128)] && c.econ2 == c.rom.econ2.(autoinc := true) && RxEnabled(c)
  }

  lemma InitConfigured(c: Chip, mac: MacAddress)
    requires Initialised(c, mac)
    ensures Configured(c, mac)
  {
    InitMeaning(c.rom, mac);
    hide InitCells, SetBit, Macon1, Macon3, Pointer;
  }

  lemma KeptCells(c: Chip, d: Chip, e: Chip)
    requires ConfigKept(c, d) && ConfigKept(d, e)
    ensures e.phy == c.phy && e.econ2 == c.econ2 && e.rom == c.rom && RxEnabled(e) == RxEnabled(c)
    ensures forall k :: 8 <= k < 128 && k != 12 && k != 13 ==> e.cells[k] == c.cells[k]
  {
  }

  lemma StillConfigured(c: Chip, d: Chip, e: Chip, mac: MacAddress)
    requires Configured(c, mac) && ConfigKept(c, d) && ConfigKept(d, e)
    ensures Configured(e, mac) && e.rom == c.rom
  {
    hide SetBit, Macon1, Macon3, Pointer, Join;
    KeptCells(c, d, e);
    PointerOf(c.cells, e.cells, 0x08);
    PointerOf(c.cells, e.cells, 0x0a);
  }

  /** The whole run has sent the greeting and then what the turns ask for, and the chip is still configured. */
  lemma ServedAfter(choices: Choices, maxlen: nat, k: Counters, c: Chip, c1: Chip, c2: Chip, d: Chip, mac: MacAddress,
                    greeting: seq<Pbuf>, events: seq<Option<Frame>>)
    requires c1.sent == c.sent && Configured(c1, mac) && ConfigKept(c1, c2) && SentBy(c1, c2, greeting)
    requires Served(choices, maxlen, k, c2, d, events)
    ensures Configured(d, mac) && d.rom == c1.rom
    ensures c2.log <= d.log && SentBy(c, d, greeting + RunOf(choices, k, events, maxlen).out)
  {
    hide Configured, ConfigKept, SentBy, RunOf;
    StillConfigured(c1, c2, d, mac);
    SentBySame(c, c1, c2, greeting);
    SentByTransitive(c, c2, d, greeting, RunOf(choices, k, events, maxlen).out);
  }

  /** The longest frame the MAC lets in is 1518 bytes. */
  lemma LongestFrame(c: Chip, mac: MacAddress)
    requires Configured(c, mac)
    ensures Join(c.cells[74], c.cells[75]) == 1518
  {
    hide SetBit, Macon1, Macon3, RingConfigured, Join;
  }

  lemma RunHandsWhole(choices: Choices, r0: Record, from: nat, d: Chip, r: Record, to: nat,
                      events: seq<Option<Frame>>, begun: seq<nat>)
    requires Accounted(choices, BUFFER_SIZE, r0, from, d, r, to, events, begun)
    ensures HandedWhole(Between(d.log, from, to), choices.grants, r0.counts.allocs, BUFFER_SIZE,
                        Since(r0.handed, r.handed), 1518)
  {
    hide GivenOf, WithFate, NonEmpty, Consumed, HandedWhole;
    GivenWhole(d.log[from..to], choices.grants, r0.counts.allocs, BUFFER_SIZE, 1518);
  }

  /**
   main, for any number of turns: initialisation from any state between two commands, what the stack sends while the
   interface is set up, and the main loop, which goes as `Gone` and `Accounted` say for the frames stored since the
   driver was initialised.
   */
  method Run(dev: Enc28j60, stack: Stack, mac: MacAddress, selfTest: bool, greeting: seq<Pbuf>, turns: nat)
    returns (ghost events: seq<Option<Frame>>)
    requires dev.io.Faithful()
    requires CsRise(dev.io.chip).violations == {}
    requires stack.Valid() && Sendable(greeting)
    modifies dev, dev.io, stack
    ensures Ready(dev) && stack.held == old(stack.held)
    ensures Leads(dev.io.history, dev.io.first, dev.io.chip) && Clean(dev.io.history)
    ensures Configured(dev.io.chip, mac) && dev.io.chip.rom == old(dev.io.chip).rom
    ensures |events| == turns && old(stack.seen) <= stack.seen
    ensures old(dev.io.chip).log <= dev.io.chip.log && |old(dev.io.chip).log| <= dev.since
    ensures SentBy(old(dev.io.chip), dev.io.chip,
                   greeting + RunOf(stack.choices, old(stack.Counts()), events, BUFFER_SIZE).out)
    ensures var r := old(stack.Story()).(requested := old(stack.requested) + greeting);
            var begun := Since(old(stack.seen), stack.seen);
            && Gone(stack.choices, BUFFER_SIZE, r, dev.since, dev.io.chip, stack.Story(), dev.taken, events, begun)
            && Accounted(stack.choices, BUFFER_SIZE, r, dev.since, dev.io.chip, stack.Story(), dev.taken, events, begun)
    ensures Join(dev.io.chip.cells[74], dev.io.chip.cells[75]) == 1518
    ensures var frames, given := Between(dev.io.chip.log, dev.since, dev.taken), Since(old(stack.handed), stack.handed);
            var grants, a := stack.choices.grants, old(stack.allocs);
            forall i :: 0 <= i < |frames| && 4 < |frames[i].data| <= 1518
                        && grants(a + NonEmpty(frames[..i], BUFFER_SIZE)) ==>
              var k := |GivenOf(frames[..i], grants, a, BUFFER_SIZE)|;
              k < |given| && given[k] == frames[i].data[..|frames[i].data| - 4]
  {
    hide Ready, Initialised, Configured, ConfigKept, RxSideKept, Gone, Served, Accounted, Sendable, SentBy, RunOf, Since,
         NonEmpty, GivenOf, Leads, Clean, Between, Join, Stack.Valid;
    var buf := new byte[BUFFER_SIZE];
    ghost var c, seen := dev.io.chip, stack.seen;
    var passed := Init(dev, mac, selfTest);
    ghost var c1 := dev.io.chip;
    InitConfigured(c1, mac);
    SetUp(dev, stack, greeting);
    ghost var c2, before := dev.io.chip, stack.seen;
    RxSideFacts(c1, c2);
    events := MainLoop(dev, stack, buf, turns);
    ServedAfter(stack.choices, BUFFER_SIZE, old(stack.Counts()), c, c1, c2, dev.io.chip, mac, greeting, events);
    SinceBoth(seen, |c2.log|, before, stack.seen);
    LongestFrame(dev.io.chip, mac);
    RunHandsWhole(stack.choices, old(stack.Story()).(requested := old(stack.requested) + greeting), dev.since,
                  dev.io.chip, stack.Story(), dev.taken, events, Since(seen, stack.seen));
    ReadyHistory(dev);
  }

  /** The driver is ready, so the history leads here, and is without violations. */
  lemma ReadyHistory(dev: Enc28j60)
    requires Ready(dev)
    ensures Leads(dev.io.history, dev.io.first, dev.io.chip) && Clean(dev.io.history)
  {
    hide Leads, Ring, Clean;
    AlwaysClean(dev.io.history, dev.io.first, dev.io.chip);
  }

  lemma SinceBoth(seen: seq<nat>, n: nat, before: seq<nat>, now: seq<nat>)
    requires before == seen + [n] && before <= now
    ensures seen <= now && Since(seen, now) == [n] + Since(before, now)
  {
  }
}
