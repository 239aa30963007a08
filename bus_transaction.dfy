/**
 * The bus transaction executor: the register read and write entry points
 * that the sensor driver calls through its bound function pointers. The
 * SPI pair takes the interface's binary semaphore without waiting, runs one
 * poll-mode transfer, gives the semaphore back and reports success or
 * failure; the I2C pair always fails.
 *
 * The transfer itself (`spi_device_polling_transmit`) is foreign code: its
 * `esp_err_t` result is a parameter of the read and write methods, and every
 * transfer issued is recorded in a ghost log on the interface configuration.
 */
module Bmi2Bus {
  import opened Bmi2Types

  /**
   * BMI2_INTF_RETURN_TYPE results: `IntfRetFail` is BMI2_INTF_RET_FAIL, the
   * value 1; `IntfRetSuccess` is the header's BMI2_INTF_RET_SUCCESS.
   */
  datatype IntfRet = IntfRetSuccess | IntfRetFail

  /** `spi_device_handle_t`: an opaque device handle returned by the bus driver. */
  type SpiDeviceHandle = nat

  /**
   * `spi_transaction_t`, restricted to the fields the adapter sets: the
   * address phase, the lengths in bits, and the buffer pointers (None is
   * NULL). Every other field is zero.
   */
  datatype Transaction = Transaction(
    addr: uint64,
    length: uint32,
    rxlength: uint32,
    rxBuffer: Option<array<uint8>>,
    txBuffer: Option<array<uint8>>)

  /** One poll-mode transfer as the bus saw it: the device and the descriptor. */
  datatype Transfer = Transfer(device: Option<SpiDeviceHandle>, txn: Transaction)

  /** `len*8` in 32-bit unsigned arithmetic: a byte count as a bit count. */
  function BitLength(len: uint32): uint32 {
    ((len as int * 8) % 0x1_0000_0000) as uint32
  }

  /** The descriptor of a register read (esp_common/bmi2_common.c:53-59). */
  function ReadTransaction(regAddr: uint8, regData: array<uint8>, len: uint32): Transaction {
    Transaction(regAddr as uint64, BitLength(len), BitLength(len), Some(regData), None)
  }

  /** The descriptor of a register write (esp_common/bmi2_common.c:80-85). */
  function WriteTransaction(regAddr: uint8, regData: array<uint8>, len: uint32): Transaction {
    Transaction(regAddr as uint64, BitLength(len), 0, None, Some(regData))
  }

  /** The number of whole bytes a bit count moves on the bus. */
  function BytesCarried(bits: uint32): nat {
    bits as nat / 8
  }

  /**
   * The descriptor's bit count carries exactly the requested byte count when
   * `len*8` fits in 32 bits, that is when `len < 2^29`; otherwise it carries
   * `len` reduced modulo 2^29.
   */
  lemma {:induction false} BitLengthCarries(len: uint32)
    ensures BytesCarried(BitLength(len)) == len as nat % 0x2000_0000
    ensures BitLength(len) as int == len as int * 8 <==> len < 0x2000_0000
  {
    var n := len as int;
    var q := n / 0x2000_0000;
    var m := n % 0x2000_0000;
    assert n * 8 == q * 0x1_0000_0000 + m * 8;
    assert (n * 8) % 0x1_0000_0000 == m * 8;
  }

  /** Both descriptors name the register and agree on the bit count; only the read receives. */
  lemma ReadWriteDescriptors(regAddr: uint8, rx: array<uint8>, tx: array<uint8>, len: uint32)
    ensures var r, w := ReadTransaction(regAddr, rx, len), WriteTransaction(regAddr, tx, len);
      && r.addr as int == w.addr as int == regAddr as int
      && r.length == r.rxlength == w.length
      && BytesCarried(r.rxlength) == BytesCarried(w.length) == len as nat % 0x2000_0000
      && r.rxBuffer == Some(rx) && r.txBuffer == None
      && w.txBuffer == Some(tx) && w.rxBuffer == None && w.rxlength == 0
  {
    BitLengthCarries(len);
  }

  /**
   * A loopback bus stub, used to state what the descriptors mean: a transfer
   * with a transmit buffer stores the first length/8 bytes of that buffer
   * under its address; any other transfer stores nothing.
   */
  function LoopbackWrite(mem: map<uint64, seq<uint8>>, t: Transaction): map<uint64, seq<uint8>>
    reads if t.txBuffer.Some? then {t.txBuffer.value} else {}
  {
    if t.txBuffer.Some? && BytesCarried(t.length) <= t.txBuffer.value.Length
    then mem[t.addr := t.txBuffer.value[..BytesCarried(t.length)]]
    else mem
  }

  /**
   * The stub delivers into a transfer's receive buffer the first rxlength/8
   * bytes stored under its address; a transfer without a receive buffer, or
   * one asking for more than is stored, receives nothing.
   */
  function LoopbackRead(mem: map<uint64, seq<uint8>>, t: Transaction): Option<seq<uint8>> {
    if t.rxBuffer.Some? && t.addr in mem && BytesCarried(t.rxlength) <= |mem[t.addr]|
    then Some(mem[t.addr][..BytesCarried(t.rxlength)])
    else None
  }

  /**
   * Writing `len` bytes from `tx` to a register of the loopback stub and
   * reading `len` bytes back into `rx` delivers the bytes of `tx`: all `len`
   * of them when `len*8` fits in 32 bits.
   */
  lemma LoopbackRoundTrip(mem: map<uint64, seq<uint8>>, regAddr: uint8, tx: array<uint8>, rx: array<uint8>, len: uint32)
    requires len as int <= tx.Length
    ensures LoopbackRead(LoopbackWrite(mem, WriteTransaction(regAddr, tx, len)), ReadTransaction(regAddr, rx, len))
      == Some(tx[..len as nat % 0x2000_0000])
    ensures len < 0x2000_0000 ==>
      LoopbackRead(LoopbackWrite(mem, WriteTransaction(regAddr, tx, len)), ReadTransaction(regAddr, rx, len))
        == Some(tx[..len])
  {
    BitLengthCarries(len);
    var w, r := WriteTransaction(regAddr, tx, len), ReadTransaction(regAddr, rx, len);
    var k := BytesCarried(w.length);
    var stored := LoopbackWrite(mem, w);
    assert stored[r.addr] == tx[..k];
    assert stored[r.addr][..k] == tx[..k];
  }

  /**
   * `bmi2_intf_config_t`: the SPI host, the device handle once the device is
   * attached, and the binary semaphore guarding the bus (`locked` is true
   * while some caller holds it).
   */
  class InterfaceConfig {
    const spiHost: nat
    var spiHandle: Option<SpiDeviceHandle>
    var locked: bool
    /** Every poll-mode transfer issued through this interface, oldest first. */
    ghost var transfers: seq<Transfer>

    constructor (host: nat)
      ensures spiHost == host && spiHandle == None && !locked && transfers == []
    {
      spiHost := host;
      spiHandle := None;
      locked := false;
      transfers := [];
    }

    /** `xSemaphoreTake(spiSemaphore, 0)`: take the semaphore if it is free, never wait. */
    method TakeNoWait() returns (taken: bool)
      modifies this`locked
      ensures taken == !old(locked)
      ensures locked
    {
      taken := !locked;
      locked := true;
    }

    /** `xSemaphoreGive(spiSemaphore)`. */
    method Give()
      modifies this`locked
      ensures !locked
    {
      locked := false;
    }

    /**
     * `spi_device_polling_transmit(spiHandle, &t)`: one blocking transfer,
     * issued only by the holder of the semaphore. `outcome` is what the bus
     * driver reports and `received` the bytes the device sends back, one per
     * eight bits of `rxlength`. A successful receiving transfer leaves them
     * at the front of the receive buffer; what a failed one leaves there is
     * not specified. No transfer writes past `rxlength`.
     */
    method PollingTransmit(t: Transaction, outcome: EspErr, received: seq<uint8>) returns (err: EspErr)
      requires locked
      requires t.rxBuffer.Some? ==> |received| == BytesCarried(t.rxlength) <= t.rxBuffer.value.Length
      modifies this`transfers, if t.rxBuffer.Some? then {t.rxBuffer.value} else {}
      ensures transfers == old(transfers) + [Transfer(spiHandle, t)]
      ensures err == outcome
      ensures t.rxBuffer.Some? ==>
        t.rxBuffer.value[|received|..] == old(t.rxBuffer.value[|received|..])
      ensures t.rxBuffer.Some? && outcome == ESP_OK ==>
        t.rxBuffer.value[..|received|] == received
    {
      transfers := transfers + [Transfer(spiHandle, t)];
      if t.rxBuffer.Some? && outcome == ESP_OK {
        var buffer := t.rxBuffer.value;
        forall i | 0 <= i < |received| {
          buffer[i] := received[i];
        }
      }
      err := outcome;
    }

    /**
     * `spi_bus_add_device(spiHost, ..., &spiHandle)`: attach the device to the
     * bus; on success the bus driver hands back `handle`.
     */
    method AddDevice(outcome: EspErr, handle: SpiDeviceHandle) returns (err: EspErr)
      modifies this`spiHandle
      ensures err == outcome
      ensures spiHandle == if outcome == ESP_OK then Some(handle) else old(spiHandle)
    {
      if outcome == ESP_OK {
        spiHandle := Some(handle);
      }
      err := outcome;
    }
  }

  /** bmi2_i2c_read: I2C is not supported, every call fails. */
  function I2cRead(regAddr: uint8, regData: array<uint8>, len: uint32, intfPtr: InterfaceConfig?): (r: IntfRet)
    ensures r == IntfRetFail
  {
    IntfRetFail
  }

  /** bmi2_i2c_write: I2C is not supported, every call fails. */
  function I2cWrite(regAddr: uint8, regData: array<uint8>, len: uint32, intfPtr: InterfaceConfig?): (r: IntfRet)
    ensures r == IntfRetFail
  {
    IntfRetFail
  }

  /**
   * bmi2_spi_read. A busy semaphore fails the call at once, with no transfer
   * and the buffer untouched; otherwise exactly one read transfer is issued
   * and the semaphore is free again afterwards, whatever the transfer
   * reports. The call succeeds iff the semaphore was free and the transfer
   * reported ESP_OK, and then the buffer starts with the bytes received
   * (`len` of them when `len < 2^29`, see BitLengthCarries). The caller's
   * buffer holds `len` bytes.
   */
  method SpiRead(regAddr: uint8, regData: array<uint8>, len: uint32, cfg: InterfaceConfig,
                 outcome: EspErr, received: seq<uint8>)
    returns (r: IntfRet)
    requires len as int <= regData.Length
    requires |received| == BytesCarried(BitLength(len))
    modifies cfg`locked, cfg`transfers, regData
    ensures cfg.locked == old(cfg.locked)
    ensures cfg.transfers == if old(cfg.locked) then old(cfg.transfers)
      else old(cfg.transfers) + [Transfer(cfg.spiHandle, ReadTransaction(regAddr, regData, len))]
    ensures r == IntfRetSuccess <==> !old(cfg.locked) && outcome == ESP_OK
    ensures old(cfg.locked) ==> regData[..] == old(regData[..])
    ensures regData[|received|..] == old(regData[|received|..])
    ensures r == IntfRetSuccess ==> regData[..|received|] == received
  {
    BitLengthCarries(len);
    var transaction := ReadTransaction(regAddr, regData, len);
    var err := ESP_OK;
    var taken := cfg.TakeNoWait();
    if taken {
      err := cfg.PollingTransmit(transaction, outcome, received);
      cfg.Give();
    } else {
      return IntfRetFail;
    }
    if err != ESP_OK {
      return IntfRetFail;
    }
    return IntfRetSuccess;
  }

  /**
   * bmi2_spi_write: the same discipline as SpiRead, with a descriptor that
   * only transmits.
   */
  method SpiWrite(regAddr: uint8, regData: array<uint8>, len: uint32, cfg: InterfaceConfig, outcome: EspErr)
    returns (r: IntfRet)
    modifies cfg`locked, cfg`transfers
    ensures cfg.locked == old(cfg.locked)
    ensures cfg.transfers == if old(cfg.locked) then old(cfg.transfers)
      else old(cfg.transfers) + [Transfer(cfg.spiHandle, WriteTransaction(regAddr, regData, len))]
    ensures r == IntfRetSuccess <==> !old(cfg.locked) && outcome == ESP_OK
  {
    var transaction := WriteTransaction(regAddr, regData, len);
    var err := ESP_OK;
    var taken := cfg.TakeNoWait();
    if taken {
      err := cfg.PollingTransmit(transaction, outcome, []);
      cfg.Give();
    } else {
      return IntfRetFail;
    }
    if err != ESP_OK {
      return IntfRetFail;
    }
    return IntfRetSuccess;
  }

  /**
   * A failed transfer leaves the bus free: the next write from the same
   * caller takes the semaphore at once and issues its own transfer.
   */
  method RetryAfterBusError(regAddr: uint8, regData: array<uint8>, len: uint32, cfg: InterfaceConfig,
                            failure: EspErr, received: seq<uint8>)
    returns (first: IntfRet, second: IntfRet)
    requires !cfg.locked && failure != ESP_OK
    requires len as int <= regData.Length && |received| == BytesCarried(BitLength(len))
    modifies cfg`locked, cfg`transfers, regData
    ensures first == IntfRetFail && second == IntfRetSuccess && !cfg.locked
    ensures |cfg.transfers| == |old(cfg.transfers)| + 2
  {
    first := SpiRead(regAddr, regData, len, cfg, failure, received);
    second := SpiWrite(regAddr, regData, len, cfg, ESP_OK);
  }
}
