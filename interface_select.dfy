/**
 * The interface selector: `bmi2_interface_init` binds the SPI read, write
 * and delay functions onto the driver's device handle and attaches the
 * device to the SPI bus; I2C is refused, and any other interface value is
 * left alone. The function pointers are modelled as tags, the bus driver's
 * attach result as a parameter, and the diagnostic it prints as a returned
 * `Report`.
 */
module Bmi2Interface {
  import opened Bmi2Types
  import opened Bmi2Status
  import opened Bmi2Bus

  /** The `intf` argument: the header's SPI value, its I2C value, or any other byte. */
  datatype Intf = SpiIntf | I2cIntf | OtherIntf

  /** What a function-pointer field of the handle points to. */
  datatype Binding = Unbound | SpiReadFn | SpiWriteFn | DelayUsFn | OtherFn(id: nat)

  /** The fields of `struct bmi2_dev` that the selector touches. */
  class Bmi2Dev {
    var intf: Intf
    var read: Binding
    var write: Binding
    var delayUs: Binding
    var intfPtr: InterfaceConfig?

    constructor (cfg: InterfaceConfig?)
      ensures intf == OtherIntf && intfPtr == cfg
      ensures read == Unbound && write == Unbound && delayUs == Unbound
    {
      intf := OtherIntf;
      read, write, delayUs := Unbound, Unbound, Unbound;
      intfPtr := cfg;
    }
  }

  /** The status the selector reaches for a non-null handle (esp_common/bmi2_common.c:119-135). */
  function SelectStatus(intf: Intf, attach: EspErr): Status {
    match intf
    case I2cIntf => EComFail
    case SpiIntf => if attach != ESP_OK then EComFail else Ok
    case OtherIntf => Ok
  }

  /** The status bmi2_interface_init returns, with the null test made before any dereference. */
  function InitResult(handleIsNull: bool, intf: Intf, attach: EspErr): Status {
    if handleIsNull then ENullPtr else SelectStatus(intf, attach)
  }

  /**
   * The status as the statements are ordered in the source; None is undefined
   * behaviour. The context pointer is read through the handle before the
   * handle is tested for null, so the null-pointer branch is never reached.
   */
  function InitResultAsWritten(handleIsNull: bool, intf: Intf, attach: EspErr): Option<Status> {
    if handleIsNull then None else Some(SelectStatus(intf, attach))
  }

  /**
   * A null handle is undefined behaviour as written and a null-pointer status
   * once corrected; on every non-null handle the two agree.
   */
  lemma NullHandleDereferenced(handleIsNull: bool, intf: Intf, attach: EspErr)
    ensures handleIsNull ==>
      InitResultAsWritten(handleIsNull, intf, attach) == None && InitResult(handleIsNull, intf, attach) == ENullPtr
    ensures !handleIsNull ==>
      InitResultAsWritten(handleIsNull, intf, attach) == Some(InitResult(handleIsNull, intf, attach))
  {
  }

  /**
   * The selector returns one of three statuses: null pointer exactly for a
   * null handle; communication failure exactly for I2C or a failed SPI
   * attach; success otherwise, including for an interface value that is
   * neither SPI nor I2C.
   */
  lemma InitStatusCases(handleIsNull: bool, intf: Intf, attach: EspErr)
    ensures var r := InitResult(handleIsNull, intf, attach);
      && (r == ENullPtr <==> handleIsNull)
      && (r == EComFail <==> !handleIsNull && (intf == I2cIntf || (intf == SpiIntf && attach != ESP_OK)))
      && (r == Ok <==> !handleIsNull && (intf.OtherIntf? || (intf == SpiIntf && attach == ESP_OK)))
  {
  }

  /**
   * The diagnostic printed on the way out is silent exactly when the
   * selector succeeded, and otherwise an error naming the status returned.
   */
  lemma InitDiagnostic(code: CodeTable, handleIsNull: bool, intf: Intf, attach: EspErr)
    requires Distinct(code)
    ensures var r := InitResult(handleIsNull, intf, attach);
      && (Classify(code, code(r)).Silent? <==> r == Ok)
      && (r != Ok ==> Classify(code, code(r)) == Error(code(r), r))
  {
    ClassifyNamed(code, InitResult(handleIsNull, intf, attach));
  }

  /**
   * bmi2_interface_init. SPI always records the interface and binds the SPI
   * read, write and delay functions, then attaches the device; the bindings
   * stay even when the attach fails. Any other interface value changes
   * nothing. The status is InitResult's and the diagnostic is the reporter's
   * classification of it.
   */
  method InterfaceInit(bmi: Bmi2Dev?, intf: Intf, attachOutcome: EspErr, attachedHandle: SpiDeviceHandle, code: CodeTable)
    returns (rslt: Status, diag: Report)
    requires bmi != null && intf == SpiIntf ==> bmi.intfPtr != null
    modifies bmi, if bmi != null then {bmi.intfPtr} else {}
    ensures rslt == InitResult(bmi == null, intf, attachOutcome)
    ensures diag == Classify(code, code(rslt))
    ensures bmi != null ==> bmi.intfPtr == old(bmi.intfPtr)
    ensures bmi != null && intf == SpiIntf ==>
      && bmi.intf == SpiIntf
      && bmi.read == SpiReadFn && bmi.write == SpiWriteFn && bmi.delayUs == DelayUsFn
      && bmi.intfPtr.spiHandle == (if attachOutcome == ESP_OK then Some(attachedHandle) else old(bmi.intfPtr.spiHandle))
      && bmi.intfPtr.locked == old(bmi.intfPtr.locked)
      && bmi.intfPtr.transfers == old(bmi.intfPtr.transfers)
    ensures bmi != null && intf != SpiIntf ==>
      unchanged(bmi) && (bmi.intfPtr != null ==> unchanged(bmi.intfPtr))
  {
    rslt := Ok;
    if bmi != null {
      var interfaceConfig := bmi.intfPtr;
      if intf == I2cIntf {
        rslt := EComFail;
      } else if intf == SpiIntf {
        bmi.intf := SpiIntf;
        bmi.read := SpiReadFn;
        bmi.write := SpiWriteFn;
        bmi.delayUs := DelayUsFn;
        var err := interfaceConfig.AddDevice(attachOutcome, attachedHandle);
        if err != ESP_OK {
          rslt := EComFail;
        }
      }
    } else {
      rslt := ENullPtr;
    }
    diag := Classify(code, code(rslt));
  }
}
