/**
 The byte-level port (User/enc28j60/port/src/enc28j60_port.c) and the chip at its other end. Time passes,
 and with it anything the chip does by itself, before every byte and every fall of the select line.
 */
module Port {
  import opened Bytes
  import opened RegisterMap
  import opened ChipModel
  import opened Environment
  import opened Trace

  /** The phase of the serial interface plays no part in what the chip does on its own. */
  lemma PhaseIsFree(c: Chip, d: Chip, e: Chip)
    requires Evolves(c, d) && e == d.(phase := e.phase)
    ensures Evolves(c, e)
  {
    assert KeepsRing(d, e);
    assert SteadyAndSooner(c, e) && MiiEvolves(c, e) && MemoryKept(c, e);
    if Transmitting(c) ==> TxInBounds(c) {
      KeepsRingTransitive(c, d, e);
    }
  }

  lemma EvolvesKeepsBank(c: Chip, d: Chip)
    requires Evolves(c, d)
    ensures Bsel(d) == Bsel(c) && (c.mii.Idle? ==> d.mii.Idle?)
  {
  }

  class Bus {
    var chip: Chip
    var clock: nat
    const schedule: nat -> Slot
    /** The chip at the beginning, and all that has happened to it since. */
    const first: Chip
    ghost var history: History
    /** The bytes the driver has clocked out, all in a row. */
    ghost var clocked: seq<byte>

    constructor (chip: Chip, schedule: nat -> Slot)
      ensures this.chip == chip && this.first == chip && this.schedule == schedule && Faithful()
    {
      this.chip, this.clock, this.schedule, this.first := chip, 0, schedule, chip;
      this.history, this.clocked := History([chip], []), [];
    }

    /** The chip is what it became step by step; nothing but its own reactions has changed it. */
    ghost predicate Faithful()
      reads this
    {
      Leads(history, first, chip) && clocked == Clocked(history.steps)
    }

    method Pass()
      requires Faithful()
      modifies this
      ensures Faithful() && clocked == old(clocked)
      ensures Evolves(old(chip), chip) && chip.phase == old(chip).phase
    {
      ElapseEvolves(chip, schedule(clock));
      LeadsOn(history, first, chip, Wait(schedule(clock)));
      ClockedOn(history, Wait(schedule(clock)), React(chip, Wait(schedule(clock))));
      chip := Elapse(chip, schedule(clock));
      history := Extended(history, Wait(schedule(clock)), chip);
      clock := clock + 1;
    }

    /** enc28j60_hw_cs_low: selects the chip, unless it is selected already. */
    method CsLow()
      requires Faithful()
      modifies this
      ensures Faithful() && clocked == old(clocked)
      ensures Evolves(old(chip), chip)
      ensures chip.phase == if old(chip).phase.Deselected? then Selected else old(chip).phase
    {
      Pass();
      PhaseIsFree(old(chip), chip, CsFall(chip));
      LeadsOn(history, first, chip, Fall);
      ClockedOn(history, Fall, React(chip, Fall));
      chip := CsFall(chip);
      history := Extended(history, Fall, chip);
    }

    /** enc28j60_hw_cs_high. */
    method CsHigh()
      requires Faithful()
      modifies this
      ensures Faithful() && clocked == old(clocked)
      ensures chip == CsRise(old(chip))
    {
      LeadsOn(history, first, chip, Rise);
      ClockedOn(history, Rise, React(chip, Rise));
      chip := CsRise(chip);
      history := Extended(history, Rise, chip);
    }

    /** enc28j60_hw_send_short_cmd: one byte each way. */
    method SendShortCmd(cmd: byte) returns (answer: byte, ghost before: Chip)
      requires Faithful()
      modifies this
      ensures Faithful() && clocked == old(clocked) + [cmd]
      ensures Evolves(old(chip), before) && before.phase == old(chip).phase
      ensures (chip, answer) == Exchange(before, cmd)
    {
      Pass();
      before := chip;
      LeadsOn(history, first, chip, Transfer(cmd));
      ClockedOn(history, Transfer(cmd), React(chip, Transfer(cmd)));
      var (c, r) := Exchange(chip, cmd);
      chip := c;
      history := Extended(history, Transfer(cmd), chip);
      clocked := clocked + [cmd];
      answer := r;
    }

    /** The opcode byte of a control-register read or write. */
    method SendOpcode(reg: byte)
      requires chip.phase.Selected? && (reg < 0x20 || WRITE_CONTROL <= reg < WRITE_CONTROL + 0x20)
      requires Faithful()
      modifies this
      ensures Faithful() && clocked == old(clocked) + [reg]
      ensures Evolves(old(chip), chip)
      ensures chip.phase == if reg < 0x20 then ReadingControl(reg, false) else WritingControl(reg - WRITE_CONTROL)
    {
      hide Faithful, Evolves;
      var answer;
      ghost var m;
      answer, m := SendShortCmd(reg);
      assert reg / 0x20 == (if reg < 0x20 then 0 else 2);
      PhaseIsFree(old(chip), m, chip);
    }

    /** The dummy byte of a MAC or MII register. */
    method SkipDummy(reg: byte) returns (dummy: byte)
      requires reg < 0x20 && chip.phase == ReadingControl(reg, false) && SendsDummy(Bsel(chip), reg)
      requires Faithful()
      modifies this
      ensures Faithful() && clocked == old(clocked) + [0]
      ensures Evolves(old(chip), chip) && chip.phase == ReadingControl(reg, true)
    {
      hide Faithful, Evolves;
      ghost var m;
      dummy, m := SendShortCmd(0);
      EvolvesKeepsBank(old(chip), m);
      PhaseIsFree(old(chip), m, chip);
    }

    /** The byte that carries the register's value. */
    method TakeValue(reg: byte) returns (value: byte)
      requires reg < 0x20 && chip.phase == ReadingControl(reg, SendsDummy(Bsel(chip), reg))
      requires Cell(Bsel(chip), reg) in {88, 89} ==> chip.mii.Idle?
      requires Faithful()
      modifies this
      ensures Faithful() && clocked == old(clocked) + [0]
      ensures Evolves(old(chip), chip) && chip.phase.Finished?
      ensures value == Peek(chip, reg)
    {
      hide Faithful, Evolves;
      ghost var m;
      value, m := SendShortCmd(0);
      EvolvesKeepsBank(old(chip), m);
      PhaseIsFree(old(chip), m, chip);
    }

    /** enc28j60_hw_send_data_8b, as used for a control-register write: the register is stored in the state `before`. */
    method SendData8(reg: byte, data: byte) returns (ghost before: Chip)
      requires chip.phase.Selected? && WRITE_CONTROL <= reg < WRITE_CONTROL + 0x20
      requires Faithful()
      modifies this
      ensures Faithful() && clocked == old(clocked) + [reg, data]
      ensures Evolves(old(chip), before)
      ensures chip == Store(before, reg - WRITE_CONTROL, data).(phase := Finished)
    {
      hide Faithful, Evolves, Store;
      SendOpcode(reg);
      ghost var m := chip;
      var answer;
      answer, before := SendShortCmd(data);
      EvolvesTransitive(old(chip), m, before);
    }

    /** enc28j60_hw_send_data_8b, as used for a bit field command: the bits change in the state `before`. */
    method SendMask8(reg: byte, mask: byte) returns (ghost before: Chip)
      requires chip.phase.Selected? && BIT_FIELD_SET <= reg < BIT_FIELD_CLEAR + 0x20
      requires Faithful()
      modifies this
      ensures Faithful() && clocked == old(clocked) + [reg, mask]
      ensures Evolves(old(chip), before)
      ensures chip == ChangeBits(before, reg % 0x20, mask, reg < BIT_FIELD_CLEAR).(phase := Finished)
    {
      hide Faithful, Evolves, ChangeBits;
      var answer;
      ghost var m;
      answer, m := SendShortCmd(reg);
      assert reg / 0x20 == (if reg < BIT_FIELD_CLEAR then 4 else 5);
      PhaseIsFree(old(chip), m, chip);
      ghost var c := chip;
      answer, before := SendShortCmd(mask);
      EvolvesTransitive(old(chip), c, before);
    }

    /** enc28j60_hw_read_data_8b on a register without a dummy byte. */
    method ReadData8(reg: byte) returns (value: byte)
      requires chip.phase.Selected? && reg < 0x20
      requires !SendsDummy(Bsel(chip), reg)
      requires Faithful()
      modifies this
      ensures Faithful() && clocked == old(clocked) + [reg, 0]
      ensures Evolves(old(chip), chip) && chip.phase.Finished?
      ensures value == Peek(chip, reg)
    {
      hide Faithful, Evolves, Peek;
      SendOpcode(reg);
      ghost var m := chip;
      EvolvesKeepsBank(old(chip), m);
      value := TakeValue(reg);
      EvolvesTransitive(old(chip), m, chip);
    }

    /** enc28j60_hw_read_data_16b on a MAC or MII register: the value follows a dummy byte, which may be anything. */
    method ReadData16(reg: byte) returns (value: word)
      requires chip.phase.Selected? && reg < 0x20
      requires SendsDummy(Bsel(chip), reg)
      requires Cell(Bsel(chip), reg) in {88, 89} ==> chip.mii.Idle?
      requires Faithful()
      modifies this
      ensures Faithful() && clocked == old(clocked) + [reg, 0, 0]
      ensures Evolves(old(chip), chip) && chip.phase.Finished?
      ensures Lo(value) == Peek(chip, reg)
    {
      hide Faithful, Evolves, Peek;
      SendOpcode(reg);
      ghost var m := chip;
      EvolvesKeepsBank(old(chip), m);
      var dummy := SkipDummy(reg);
      EvolvesTransitive(old(chip), m, chip);
      ghost var m2 := chip;
      EvolvesKeepsBank(old(chip), m2);
      var low := TakeValue(reg);
      EvolvesTransitive(old(chip), m2, chip);
      value := Join(low, dummy);
    }
  }
}
