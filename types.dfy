/** Fixed-width integer types of the C source and the ESP-IDF error type. */
module Bmi2Types {

  newtype uint8 = x: int | 0 <= x < 0x100
  newtype int8 = x: int | -0x80 <= x < 0x80
  newtype uint32 = x: int | 0 <= x < 0x1_0000_0000
  newtype int32 = x: int | -0x8000_0000 <= x < 0x8000_0000
  newtype uint64 = x: int | 0 <= x < 0x1_0000_0000_0000_0000

  /** A value or nothing; `None` also stands for a C null pointer. */
  datatype Option<T> = None | Some(value: T)

  /** ESP-IDF's `esp_err_t`: zero is success, anything else is an error. */
  type EspErr = int32

  const ESP_OK: EspErr := 0
}
