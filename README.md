# BMI270 ESP-IDF transport adapter, modelled in Dafny

This project models the transport adapter in `esp_common/bmi2_common.c`. The
adapter lets the Bosch BMI2 sensor driver reach an ESP32 SPI bus. The driver
only knows abstract register read, write and delay functions. It has three
parts:

- **Bus transaction executor** (`Bmi2Bus`, file `bus_transaction.dfy`).
  `bmi2_spi_read` and `bmi2_spi_write` take the interface's binary semaphore
  with zero wait. A busy semaphore fails the call at once. Otherwise the call
  builds an `spi_transaction_t` (register address, `len*8` bits, a receive
  buffer for reads or a transmit buffer for writes) and runs one poll-mode
  transfer. It always gives the semaphore back, then maps the transfer's
  `esp_err_t` to `BMI2_INTF_RET_SUCCESS` or `BMI2_INTF_RET_FAIL` (which is 1).
  The I2C entry points always fail.
- **Interface selector** (`Bmi2Interface`, file `interface_select.dfy`).
  `bmi2_interface_init` binds the SPI read, write and delay functions onto the
  device handle and attaches the device to the bus. I2C gives
  `BMI2_E_COM_FAIL`. Any other interface value falls through with `BMI2_OK`
  and changes nothing. As written, a null handle is dereferenced before it
  is tested (see Findings); the model tests it first and returns
  `BMI2_E_NULL_PTR`, the evidently intended result.
- **Result-code reporter** (`Bmi2Status`, file `status_report.dfy`).
  `bmi2_error_codes_print_result` classifies a signed 8-bit status. `BMI2_OK`
  is silent, the two FIFO codes are warnings, each of the 30 named error codes
  is an error of its own, and every other value is the generic
  "Unknown error code" error. Every message carries the numeric value.

Modelling choices:

- Bus and operating-system calls are abstract. `spi_device_polling_transmit`
  and `spi_bus_add_device` become `esp_err_t` parameters, and the bytes a
  read transfer receives are a parameter too. Every transfer
  issued is appended to a ghost log, `InterfaceConfig.transfers`, so "no
  transfer" and "exactly one transfer" can be stated.
- The semaphore is the `locked` field of `InterfaceConfig`, observed by a
  single sequential caller.
- Function pointers on the handle are `Binding` tags.
- The numeric values of the `BMI2_*` codes are defined in the driver's header,
  `bmi2_defs.h`, which is not part of this model. The named codes are a
  datatype `Status`, and their values are a parameter `code: Status -> int8`.
  Properties that depend on the switch labels being distinct (C requires this
  of a switch) assume `Distinct(code)`.
- Where the source uses a numeric status, the model uses the `Status` name.
  `bmi2_interface_init` only ever returns three named codes.
- The interface argument `intf` is `SpiIntf`, `I2cIntf`, or `OtherIntf`,
  which stands for every byte that is neither of the two header values.
- `len*8` is computed in 32-bit unsigned arithmetic, as in the source, and
  wraps for `len >= 2^29`. `BitLengthCarries` states what the descriptor
  then carries.
- A loopback bus stub (`LoopbackWrite`, `LoopbackRead`) gives the descriptors
  a meaning. It takes the transmitted bytes from a descriptor's transmit
  buffer and delivers only to a descriptor with a receive buffer. Writing N
  bytes to a register and then reading N bytes returns the bytes written.

## Model

| member | source | states |
|---|---|---|
| `Bmi2Status.Lookup` | esp_common/bmi2_common.c:151-253 | The case picked for a value is a label carrying that value. When no case is picked, no label carries the value. |
| `Bmi2Status.Classify` | esp_common/bmi2_common.c:149-255 | Total classification of any int8 status. Every message it produces carries the reported value. |
| `Bmi2Status.ClassifyNamed` | esp_common/bmi2_common.c:151-250 | With distinct code values, each named code is reported by its own case: silent for OK, a warning for the FIFO codes, an error naming the code for the rest. |
| `Bmi2Status.ClassifyUnnamed` | esp_common/bmi2_common.c:251-253 | A value that no named code has gives the generic "Unknown error code" error, carrying the value. |
| `Bmi2Status.SilentIff` | esp_common/bmi2_common.c:152-154 | The report is silent if and only if the value is BMI2_OK. |
| `Bmi2Status.WarningIff` | esp_common/bmi2_common.c:155-160 | The report is a warning if and only if the value is BMI2_W_FIFO_EMPTY or BMI2_W_PARTIAL_READ. |
| `Bmi2Status.ErrorIff` | esp_common/bmi2_common.c:161-253 | Each named error code gives an error naming that code. Every error names an error code. The generic error occurs exactly for values that no named code has. |
| `Bmi2Status.ReportsDistinct` | esp_common/bmi2_common.c:151-250 | Two different named codes never produce the same report. |
| `Bmi2Bus.BitLengthCarries` | esp_common/bmi2_common.c:56-57 | The 32-bit `len*8` carries `len mod 2^29` bytes. It equals `len*8` exactly if and only if `len < 2^29`. |
| `Bmi2Bus.ReadWriteDescriptors` | esp_common/bmi2_common.c:53-85 | Read and write descriptors address the register and agree on the bit length. Only the read has a receive buffer and a receive length. Only the write has a transmit buffer. |
| `Bmi2Bus.LoopbackRoundTrip` | esp_common/bmi2_common.c:53-85 | On a loopback bus that takes bytes from a descriptor's transmit buffer and delivers only to a descriptor with a receive buffer, a write of `len` bytes followed by a read of `len` bytes at the same register delivers the bytes of the write's buffer: all of them when `len < 2^29`. |
| `Bmi2Bus.I2cRead` | esp_common/bmi2_common.c:31-35 | Always returns BMI2_INTF_RET_FAIL, whatever its arguments. |
| `Bmi2Bus.I2cWrite` | esp_common/bmi2_common.c:40-44 | Always returns BMI2_INTF_RET_FAIL, whatever its arguments. |
| `Bmi2Bus.InterfaceConfig.TakeNoWait` | esp_common/bmi2_common.c:60 | The zero-wait take succeeds exactly when the semaphore was free. Afterwards the semaphore is held either way. |
| `Bmi2Bus.InterfaceConfig.Give` | esp_common/bmi2_common.c:62 | The semaphore is free afterwards. |
| `Bmi2Bus.InterfaceConfig.PollingTransmit` | esp_common/bmi2_common.c:61 | Only the holder of the semaphore issues a transfer. Exactly one transfer is logged, and the bus driver's result is returned. A successful receiving transfer leaves the received bytes at the front of its receive buffer, and no transfer writes past `rxlength`. |
| `Bmi2Bus.InterfaceConfig.AddDevice` | esp_common/bmi2_common.c:131 | The device handle is set only when the attach reports ESP_OK. The attach result is returned. |
| `Bmi2Bus.SpiRead` | esp_common/bmi2_common.c:49-71 | If the lock is held: fails, issues no transfer, lock still held. If the lock is free: exactly one read transfer, and the lock is free again. The lock state afterwards equals the state before. Success if and only if the lock was free and the transfer returned ESP_OK. A held lock leaves the buffer untouched; on success the buffer starts with the bytes received; bytes past the transfer length are never written. The caller's buffer holds `len` bytes. |
| `Bmi2Bus.SpiWrite` | esp_common/bmi2_common.c:76-97 | Same lock discipline and result as SpiRead, with the write descriptor; the buffer is only read. |
| `Bmi2Bus.RetryAfterBusError` | esp_common/bmi2_common.c:60-70 | After a transfer fails at the bus layer, the lock is released, so the next call acquires it at once and can succeed. |
| `Bmi2Interface.InitStatusCases` | esp_common/bmi2_common.c:114-140 | NULL_PTR if and only if the handle is null. COM_FAIL if and only if the interface is I2C, or it is SPI and the attach failed. OK otherwise, including any interface value that is neither SPI nor I2C. |
| `Bmi2Interface.InitDiagnostic` | esp_common/bmi2_common.c:141 | The diagnostic printed by init is silent if and only if init returns OK. Otherwise it is an error naming the status returned. |
| `Bmi2Interface.NullHandleDereferenced` | esp_common/bmi2_common.c:112-116 | As written, a null handle is undefined behaviour. Corrected, it returns NULL_PTR. On every non-null handle the two agree. |
| `Bmi2Interface.InterfaceInit` | esp_common/bmi2_common.c:110-143 | SPI records the interface and binds the SPI read, write and delay functions, even when the attach fails. The device handle changes only on a successful attach. I2C and other interface values change neither the handle nor its configuration. Returns InitResult's status with the reporter's diagnostic; its null case follows the corrected order (null test before the dereference, see Findings). |

## Findings

| source | as written | input that shows it | evidently intended | confidence | as-written member | corrected member |
|---|---|---|---|---|---|---|
| esp_common/bmi2_common.c:112-116 | `bmi->intf_ptr` is read before `bmi != NULL` is tested | `bmi == NULL`: the read at :112 dereferences null, so the `BMI2_E_NULL_PTR` branch at :139 is never reached in defined behaviour | read the context pointer only after the null test, and return `BMI2_E_NULL_PTR` for a null handle | high (not executed) | `Bmi2Interface.InitResultAsWritten` (exhibited by `Bmi2Interface.NullHandleDereferenced`) | `Bmi2Interface.InitResult`, used by `Bmi2Interface.InterfaceInit` |

## Left out

- `bmi2_delay_us` (esp_common/bmi2_common.c:102-105): a busy wait with no logical content. Only its binding (`DelayUsFn`) is modelled.
- `ESP_LOGE`/`ESP_LOGW` output and the `TAG` string. The reporter returns a `Report` value, and `Headline` gives each message's headline phrase. The explanatory sentences that follow the headlines are not reproduced. Pairwise distinctness of the headline strings is not proved. The report names its case instead, and `ReportsDistinct` proves that different codes give different reports.
- The I2C stubs' error log lines: logging only.
- `spi_device_polling_transmit` and `spi_bus_add_device`: foreign bus-driver code. Only their `esp_err_t` results, the handle returned by a successful attach and the bytes a read receives are modelled. What a failed read transfer leaves in the receive buffer is not specified.
- The FreeRTOS semaphore across real tasks and interrupts. The model is a single sequential caller that observes a held or free lock.
- The numeric values of the `BMI2_*` codes and of `BMI2_INTF_RET_SUCCESS`: `bmi2_defs.h` is not part of this model.
- Named codes from the header that have no case in the switch are not named by the model. Like any other value without a case, they get the generic error (`ClassifyUnnamed`).
- `esp_common/common.c`: every function there is an empty stub, and its `bmi2_interface_init` returns no value. It has no behaviour to model.
- The other fields of `spi_transaction_t` (flags, command, user data) are zero in the source and are not represented.
