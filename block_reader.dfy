/**
 * Filling the receive buffer: a placeholder byte, then registers 1..254
 * of the UPS micro-controller read one at a time, in order.
 */
module BlockReader {
  import opened Wrappers
  import opened RegisterBlock

  /** A register read that raised; the fill stops at the first one. */
  datatype BusError = BusError(register: nat)

  /**
   * The bus seen from the exporter: `read(reg)` is the byte that register
   * `reg` of the UPS micro-controller (address 0x17 on
   * I2C bus 1) returns, or None when the read raises.
   */
  type RegisterRead = nat -> Option<Byte>

  predicate AllReadsSucceed(read: RegisterRead)
  {
    forall reg :: 1 <= reg < BLOCK_SIZE ==> read(reg).Some?
  }

  /** The block a complete fill produces. */
  function BlockOf(read: RegisterRead): Block
    requires AllReadsSucceed(read)
  {
    seq(BLOCK_SIZE, i requires 0 <= i < BLOCK_SIZE => if i == 0 then 0 else read(i).value)
  }

  /**
   * The fill loop. It succeeds exactly when every register read succeeds,
   * and then slot 0 holds the placeholder 0 and slot i the byte of register
   * i; otherwise it reports the first register whose read failed.
   */
  method ReadBlock(read: RegisterRead) returns (r: Result<Block, BusError>)
    ensures r.Success? <==> AllReadsSucceed(read)
    ensures r.Success? ==> r.value[0] == 0
    ensures r.Success? ==> forall reg :: 1 <= reg < BLOCK_SIZE ==> r.value[reg] == read(reg).value
    ensures r.Success? ==> r.value == BlockOf(read)
    ensures r.Failure? ==>
      && 1 <= r.error.register < BLOCK_SIZE
      && read(r.error.register).None?
      && forall reg :: 1 <= reg < r.error.register ==> read(reg).Some?
  {
    var buf: seq<Byte> := [0];
    for i := 1 to BLOCK_SIZE
      invariant |buf| == i
      invariant buf[0] == 0
      invariant forall reg :: 1 <= reg < i ==> read(reg).Some? && buf[reg] == read(reg).value
    {
      var b := read(i);
      if b.None? {
        return Failure(BusError(i));
      }
      buf := buf + [b.value];
    }
    r := Success(buf);
  }
}
