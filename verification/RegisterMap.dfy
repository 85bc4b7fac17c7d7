/** Register table and constants of User/enc28j60/lowlayer/inc/enc28j60_register_map.h. */
module RegisterMap {
  const RX_START := 0x0
  const RX_END := 0x17ff
  const TX_START := 0x1800

  const READ_CONTROL := 0x00
  const READ_BUFFER := 0x20
  const WRITE_CONTROL := 0x40
  const WRITE_BUFFER := 0x60
  const BIT_FIELD_SET := 0x80
  const BIT_FIELD_CLEAR := 0xa0
  const SYSTEM_RESET := 0xe0
  const BUFFER_MEMORY_ARG := 0x1a
  const SOFT_RESET_ARG := 0x1f

  datatype Bank = Bank0 | Bank1 | Bank2 | Bank3 | Common

  datatype RegType = Eth | Mac | Mii | Phy

  datatype Reg = Reg(kind: RegType, bank: Bank, addr: int, length: int)

  function BankNumber(b: Bank): int
    requires b != Common
  {
    match b case Bank0 => 0 case Bank1 => 1 case Bank2 => 2 case Bank3 => 3
  }

  const EIE := Reg(Eth, Common, 0x1b, 1)
  const EIR := Reg(Eth, Common, 0x1c, 1)
  const ESTAT := Reg(Eth, Common, 0x1d, 1)
  const ECON2 := Reg(Eth, Common, 0x1e, 1)
  const ECON1 := Reg(Eth, Common, 0x1f, 1)

  const ERDPT := Reg(Eth, Bank0, 0x00, 2)
  const EWRPT := Reg(Eth, Bank0, 0x02, 2)
  const ETXST := Reg(Eth, Bank0, 0x04, 2)
  const ETXND := Reg(Eth, Bank0, 0x06, 2)
  const ERXST := Reg(Eth, Bank0, 0x08, 2)
  const ERXND := Reg(Eth, Bank0, 0x0a, 2)
  const ERXRDPT := Reg(Eth, Bank0, 0x0c, 2)

  const ERXFCON := Reg(Eth, Bank1, 0x18, 1)
  const EPKTCNT := Reg(Eth, Bank1, 0x19, 1)

  const MACON1 := Reg(Mac, Bank2, 0x00, 1)
  const MACON3 := Reg(Mac, Bank2, 0x02, 1)
  const MABBIPG := Reg(Mac, Bank2, 0x04, 1)
  const MAMXFL := Reg(Mac, Bank2, 0x0a, 2)
  const MICMD := Reg(Mii, Bank2, 0x12, 1)
  const MIREGADR := Reg(Mii, Bank2, 0x14, 1)
  const MIWR := Reg(Mii, Bank2, 0x16, 2)
  const MIRD := Reg(Mii, Bank2, 0x18, 2)

  const MAADR5 := Reg(Mac, Bank3, 0x00, 1)
  const MAADR6 := Reg(Mac, Bank3, 0x01, 1)
  const MAADR3 := Reg(Mac, Bank3, 0x02, 1)
  const MAADR4 := Reg(Mac, Bank3, 0x03, 1)
  const MAADR1 := Reg(Mac, Bank3, 0x04, 1)
  const MAADR2 := Reg(Mac, Bank3, 0x05, 1)
  const MISTAT := Reg(Mii, Bank3, 0x0a, 1)

  const PHCON1 := Reg(Phy, Common, 0x00, 2)
  const PHLCON := Reg(Phy, Common, 0x14, 2)
}
