/** Histories of the chip: what happens at its pins and meanwhile, step by step, and the states in between. */
module Trace {
  import opened Bytes
  import opened ChipModel
  import opened Environment

  datatype Step = Fall | Rise | Transfer(b: byte) | Wait(slot: Slot)

  function React(c: Chip, step: Step): Chip {
    match step
    case Fall => CsFall(c)
    case Rise => CsRise(c)
    case Transfer(b) => Exchange(c, b).0
    case Wait(slot) => Elapse(c, slot)
  }

  /** Steps, and the states before, between and behind them. */
  datatype History = History(states: seq<Chip>, steps: seq<Step>)

  /** Every state came out of the one before by the step in between, from `first` to `last`. */
  ghost predicate Leads(h: History, first: Chip, last: Chip) {
    && |h.states| == |h.steps| + 1 && h.states[0] == first && h.states[|h.steps|] == last
    && forall i {:trigger h.steps[i]} :: 0 <= i < |h.steps| ==> h.states[i + 1] == React(h.states[i], h.steps[i])
  }

  function Extended(h: History, step: Step, c: Chip): History {
    History(h.states + [c], h.steps + [step])
  }

  /** The bytes clocked out to the chip. */
  function Clocked(steps: seq<Step>): seq<byte> {
    if steps == [] then []
    else
      var n := |steps| - 1;
      Clocked(steps[..n]) + match steps[n] case Transfer(b) => [b] case _ => []
  }

  lemma ClockedOn(h: History, step: Step, c: Chip)
    ensures Clocked(Extended(h, step, c).steps) == Clocked(h.steps) + if step.Transfer? then [step.b] else []
  {
    assert (h.steps + [step])[..|h.steps|] == h.steps;
  }

  lemma LeadsOn(h: History, first: Chip, last: Chip, step: Step)
    requires Leads(h, first, last)
    ensures Leads(Extended(h, step, React(last, step)), first, React(last, step))
  {
    hide React;
  }

  /** No violation, no frame stored and no packet sent is forgotten. */
  predicate Remembers(c: Chip, d: Chip) {
    c.violations <= d.violations && c.log <= d.log && c.sent <= d.sent
  }

  lemma StoreRemembers(c: Chip, addr: int, v: byte)
    requires 0 <= addr < 0x20
    ensures Remembers(c, Store(c, addr, v))
  {
    hide Peek, Econ1Of, TxBytes, Pointer, Implemented;
  }

  lemma ChangeRemembers(c: Chip, addr: int, mask: byte, setting: bool)
    requires 0 <= addr < 0x20
    ensures Remembers(c, ChangeBits(c, addr, mask, setting))
  {
    hide Peek, Econ1Of, Store, Or, AndNot;
    StoreRemembers(c, addr, if setting then Or(Peek(c, addr), mask) else AndNot(Peek(c, addr), mask));
  }

  lemma CommandRemembers(c: Chip, b: byte)
    ensures Remembers(c, Command(c, b))
  {
    hide Pointer;
  }

  lemma ExchangeRemembers(c: Chip, b: byte)
    ensures Remembers(c, Exchange(c, b).0)
  {
    hide Store, ChangeBits, Command, Peek, Pointer, SetPointer;
    CommandRemembers(c, b);
    match c.phase
    case WritingControl(addr) => if 0 <= addr < 0x20 { StoreRemembers(c, addr, b); }
    case ChangingBits(addr, setting) => if 0 <= addr < 0x20 { ChangeRemembers(c, addr, b, setting); }
    case _ =>
  }

  lemma StepRemembers(c: Chip, step: Step)
    ensures Remembers(c, React(c, step))
  {
    hide Exchange, Elapse, Evolves;
    match step
    case Transfer(b) => ExchangeRemembers(c, b);
    case Wait(slot) => TimeRemembers(c, slot);
    case _ =>
  }

  lemma TimeRemembers(c: Chip, slot: Slot)
    ensures Remembers(c, Elapse(c, slot))
  {
    hide Elapse, MiiEvolves, KeepsRing, MemoryKept;
    ElapseEvolves(c, slot);
  }

  /** Whatever has happened to the chip, no earlier state had a violation, a frame or a packet the last one lacks. */
  lemma {:induction false} NeverViolated(h: History, first: Chip, last: Chip, i: nat)
    requires Leads(h, first, last) && i < |h.states|
    ensures Remembers(h.states[i], last) && (last.violations == {} ==> h.states[i].violations == {})
    decreases |h.steps|
  {
    hide React;
    var n := |h.steps|;
    if i < n {
      var u := History(h.states[..n], h.steps[..n - 1]);
      assert Leads(u, first, h.states[n - 1]);
      NeverViolated(u, first, h.states[n - 1], i);
      StepRemembers(h.states[n - 1], h.steps[n - 1]);
    }
  }

  /** No state of the history has a violation. */
  ghost predicate Clean(h: History) {
    forall i :: 0 <= i < |h.states| ==> h.states[i].violations == {}
  }

  lemma AlwaysClean(h: History, first: Chip, last: Chip)
    requires Leads(h, first, last) && last.violations == {}
    ensures Clean(h)
  {
    hide Leads;
    forall i | 0 <= i < |h.states| ensures h.states[i].violations == {} {
      NeverViolated(h, first, last, i);
    }
  }
}
