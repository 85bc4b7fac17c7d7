/** The driver's own state (User/enc28j60/interface/inc/enc28j60_priv.h). */
module Device {
  import opened Bytes
  import opened RegisterMap
  import opened Port

  /** The six bytes the chip stores before every frame. */
  datatype RxHeader = RxHeader(nextPacketPtr: word, byteCount: word, status: word)

  class Enc28j60 {
    const io: Bus
    var bank: Bank
    var header: RxHeader
    var nextRxPacketPtr: word
    var txBuffPtr: word
    /** How many of the frames the chip ever stored have been consumed. */
    ghost var taken: nat
    /** How many frames the chip had stored when the driver was initialised; these are lost. */
    ghost var since: nat

    constructor (io: Bus)
      ensures this.io == io
    {
      this.io, bank, header, nextRxPacketPtr, txBuffPtr := io, Common, RxHeader(0, 0, 0), 0, 0;
      taken, since := 0, 0;
    }

    /** The cached bank is unknown or the one selected in the chip, of which the history is known. */
    ghost predicate Coherent()
      reads this, io
    {
      (bank == Common || io.chip.econ1.bsel == BankNumber(bank)) && io.Faithful()
    }
  }
}
