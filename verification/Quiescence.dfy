/**
 `Undisturbed(c, d)`: from `c` to `d` the driver at most selected another bank and changed cells that
 are neither the ring's bounds nor the chip's own; apart from that only time passed.
 */
module Quiescence {
  import opened ChipModel
  import opened RxRing
  import opened Environment

  /** Neither a transmission nor a management operation is under way. */
  predicate Calm(c: Chip) {
    !Transmitting(c) && c.mii.Idle?
  }

  /** `d` with the register cells and the bank of `c`. */
  function Masked(d: Chip, c: Chip): Chip {
    d.(cells := c.cells, econ1 := d.econ1.(bsel := c.econ1.bsel))
  }

  predicate SameRxBounds(c: Chip, d: Chip) {
    forall k :: 0x08 <= k < 0x0c ==> d.cells[k] == c.cells[k]
  }

  lemma SameBounds(c: Chip, d: Chip)
    requires SameRxBounds(c, d)
    ensures RingConfigured(d) == RingConfigured(c)
  {
    hide Pointer;
    PointerOf(c.cells, d.cells, 0x08);
    PointerOf(c.cells, d.cells, 0x0a);
  }

  ghost predicate Undisturbed(c: Chip, d: Chip) {
    Evolves(c, Masked(d, c)) && SameRxBounds(c, d)
  }

  lemma MaskIsFree(c: Chip, d: Chip, x: Chip)
    requires SameRxBounds(c, x)
    requires d == Masked(c, x).(phase := d.phase)
    ensures KeepsRing(c, d) && KeepsRing(d, c)
  {
    hide KeepsRing, RingConfigured;
    SameBounds(c, d);
    SameRing(c, d);
  }

  /** What the chip does on its own does not depend on the bank or on the other cells, while it is calm. */
  lemma EvolvesMasked(c: Chip, d: Chip, x: Chip)
    requires Evolves(c, d) && !Transmitting(c) && (c.mii.Idle? || x.cells == c.cells) && SameRxBounds(c, x)
    ensures Evolves(Masked(c, x), Masked(d, x))
  {
    hide Ring, KeepsRing;
    var c', d' := Masked(c, x), Masked(d, x);
    MaskIsFree(c, c', x);
    MaskIsFree(d, d', x);
    KeepsRingTransitive(c', c, d);
    KeepsRingTransitive(c', d, d');
    assert SteadyAndSooner(c', d') && MiiEvolves(c', d') && MemoryKept(c', d');
  }

  lemma CalmStays(c: Chip, d: Chip)
    requires Undisturbed(c, d) && !Transmitting(c)
    ensures !Transmitting(d) && (c.mii.Idle? ==> d.mii.Idle?)
  {
    hide Ring, KeepsRing;
  }

  lemma UndisturbedTransitive(c: Chip, d: Chip, e: Chip)
    requires Undisturbed(c, d) && Undisturbed(d, e)
    requires !Transmitting(c) && (c.mii.Idle? || d.cells == c.cells)
    ensures Undisturbed(c, e)
  {
    CalmStays(c, d);
    hide Evolves;
    EvolvesMasked(d, Masked(e, d), c);
    assert Masked(Masked(e, d), c) == Masked(e, c);
    EvolvesTransitive(c, Masked(d, c), Masked(e, c));
  }

  lemma EvolvesIsUndisturbed(c: Chip, d: Chip)
    requires Evolves(c, d)
    ensures Undisturbed(c, d) && d.cells == c.cells && Bsel(d) == Bsel(c)
  {
    assert Masked(d, c) == d;
  }

  lemma PhaseKeepsRing(c: Chip, d: Chip)
    requires d == c.(phase := d.phase)
    ensures KeepsRing(c, d)
  {
    hide KeepsRing;
    SameRing(c, d);
  }

  /** A step of the driver that sets only phase, bank, and cells other than the bounds of the ring. */
  lemma DriverStep(c: Chip, d: Chip, e: Chip)
    requires Undisturbed(c, d) && !Transmitting(c)
    requires e == d.(phase := e.phase, cells := e.cells, econ1 := d.econ1.(bsel := e.econ1.bsel)) && SameRxBounds(d, e)
    ensures Undisturbed(c, e)
  {
    hide Ring;
    var d', e' := Masked(d, c), Masked(e, c);
    assert e' == d'.(phase := e.phase);
    PhaseKeepsRing(d', e');
    assert SteadyAndSooner(c, e') && MiiEvolves(c, e') && MemoryKept(c, e');
    KeepsRingTransitive(c, d', e');
  }
}
