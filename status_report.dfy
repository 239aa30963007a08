/**
 * The result-code reporter: `bmi2_error_codes_print_result` classifies a
 * signed 8-bit driver status into no output, a warning or an error, each
 * message carrying the numeric code. The log output is returned as a
 * `Report` value instead of being written.
 *
 * The numeric values of the named codes are fixed by the driver's header,
 * which is not part of this model; they are a parameter `code` here, and the
 * properties that need the switch labels to be distinct (as C demands of a
 * switch) require `Distinct(code)`.
 */
module Bmi2Status {
  import opened Bmi2Types

  /** The named codes that the reporter's switch has a case for. */
  datatype Status =
    | Ok | WFifoEmpty | WPartialRead
    | ENullPtr | EComFail | EDevNotFound | EInvalidSensor | ESelfTestFail
    | EInvalidIntPin | EOutOfRange | EAccInvalidCfg | EGyroInvalidCfg
    | EAccGyrInvalidCfg | EConfigLoad | EInvalidPage | ESetApsFail
    | EAuxInvalidCfg | EAuxBusy | ERemapError | EGyrUserGainUpdFail
    | ESelfTestNotDone | EInvalidInput | EInvalidStatus | ECrtError
    | EStAlreadyRunning | ECrtReadyForDlFailAbort | EDlError | EPreconError
    | EAbortError | EWriteCycleOngoing | EStNotRunning | EDataRdyIntFailed
    | EInvalidFocPosition
  {
    predicate IsWarning() { this == WFifoEmpty || this == WPartialRead }
    predicate IsError() { this != Ok && !IsWarning() }
  }

  /** The case labels of the switch, in the order they are written. */
  const SwitchLabels: seq<Status> := [
    Ok, WFifoEmpty, WPartialRead,
    ENullPtr, EComFail, EDevNotFound, EInvalidSensor, ESelfTestFail,
    EInvalidIntPin, EOutOfRange, EAccInvalidCfg, EGyroInvalidCfg,
    EAccGyrInvalidCfg, EConfigLoad, EInvalidPage, ESetApsFail,
    EAuxInvalidCfg, EAuxBusy, ERemapError, EGyrUserGainUpdFail,
    ESelfTestNotDone, EInvalidInput, EInvalidStatus, ECrtError,
    EStAlreadyRunning, ECrtReadyForDlFailAbort, EDlError, EPreconError,
    EAbortError, EWriteCycleOngoing, EStNotRunning, EDataRdyIntFailed,
    EInvalidFocPosition
  ]

  /** The numeric value of each named code, as the driver's header defines it. */
  type CodeTable = Status -> int8

  /** No two named codes share a value. */
  ghost predicate Distinct(code: CodeTable) {
    forall a, b :: code(a) == code(b) ==> a == b
  }

  /**
   * What the reporter logs: nothing; a warning or an error naming the case
   * that matched; or the generic "Unknown error code" error of the `default`
   * case. Every message carries the numeric value that was reported.
   */
  datatype Report =
    | Silent
    | Warning(value: int8, cause: Status)
    | Error(value: int8, cause: Status)
    | UnknownError(value: int8)

  /** The message of the `default` case. */
  const UnknownText: string := "Unknown error code"

  /** The headline of each case's message. */
  function Text(s: Status): string {
    match s
    case Ok => ""
    case WFifoEmpty => "FIFO empty"
    case WPartialRead => "FIFO partial read"
    case ENullPtr => "Null pointer error"
    case EComFail => "Communication failure error"
    case EDevNotFound => "Device not found error"
    case EInvalidSensor => "Invalid sensor error"
    case ESelfTestFail => "Self-test failed error"
    case EInvalidIntPin => "Invalid interrupt pin error"
    case EOutOfRange => "Out of range error"
    case EAccInvalidCfg => "Invalid Accel configuration error"
    case EGyroInvalidCfg => "Invalid Gyro configuration error"
    case EAccGyrInvalidCfg => "Invalid Accel-Gyro configuration error"
    case EConfigLoad => "Configuration load error"
    case EInvalidPage => "Invalid page error"
    case ESetApsFail => "APS failure error"
    case EAuxInvalidCfg => "Invalid AUX configuration error"
    case EAuxBusy => "AUX busy error"
    case ERemapError => "Remap error"
    case EGyrUserGainUpdFail => "Gyro user gain update fail error"
    case ESelfTestNotDone => "Self-test not done error"
    case EInvalidInput => "Invalid input error"
    case EInvalidStatus => "Invalid status error"
    case ECrtError => "CRT error"
    case EStAlreadyRunning => "Self-test already running error"
    case ECrtReadyForDlFailAbort => "CRT ready for download fail abort error"
    case EDlError => "Download error"
    case EPreconError => "Pre-conditional error"
    case EAbortError => "Abort error"
    case EWriteCycleOngoing => "Write cycle ongoing error"
    case EStNotRunning => "Self-test is not running error"
    case EDataRdyIntFailed => "Data ready interrupt error"
    case EInvalidFocPosition => "Invalid FOC position error"
  }

  /** The headline of the logged message; the numeric value precedes it in the log line. */
  function Headline(r: Report): string {
    match r
    case Silent => ""
    case Warning(_, s) => Text(s)
    case Error(_, s) => Text(s)
    case UnknownError(_) => UnknownText
  }

  /** The report of the case labelled `s`, for the value `v` being reported. */
  function CaseReport(s: Status, v: int8): Report {
    if s == Ok then Silent
    else if s.IsWarning() then Warning(v, s)
    else Error(v, s)
  }

  /** The first of `labels` whose value is `v`: how the switch picks its case. */
  function Lookup(code: CodeTable, labels: seq<Status>, v: int8): (r: Option<Status>)
    ensures r.Some? ==> r.value in labels && code(r.value) == v
    ensures r.None? ==> forall s :: s in labels ==> code(s) != v
  {
    if labels == [] then None
    else if code(labels[0]) == v then Some(labels[0])
    else Lookup(code, labels[1..], v)
  }

  /** bmi2_error_codes_print_result: the message logged for `rslt`. */
  function Classify(code: CodeTable, rslt: int8): (r: Report)
    ensures !r.Silent? ==> r.value == rslt
  {
    match Lookup(code, SwitchLabels, rslt)
    case Some(s) => CaseReport(s, rslt)
    case None => UnknownError(rslt)
  }

  /** Every named code has a case in the switch. */
  lemma EveryStatusHasCase(s: Status)
    ensures s in SwitchLabels
  {
  }

  /** A named code is reported by its own case, with its own value. */
  lemma ClassifyNamed(code: CodeTable, s: Status)
    requires Distinct(code)
    ensures Classify(code, code(s)) == CaseReport(s, code(s))
  {
    EveryStatusHasCase(s);
    var r := Lookup(code, SwitchLabels, code(s));
    assert r.Some?;
    assert r.value == s;
  }

  /** A value that no named code has is reported by the generic message. */
  lemma ClassifyUnnamed(code: CodeTable, rslt: int8)
    requires forall s :: code(s) != rslt
    ensures Classify(code, rslt) == UnknownError(rslt)
  {
  }

  /** Only BMI2_OK is silent. */
  lemma SilentIff(code: CodeTable, rslt: int8)
    requires Distinct(code)
    ensures Classify(code, rslt).Silent? <==> rslt == code(Ok)
  {
    if rslt == code(Ok) {
      ClassifyNamed(code, Ok);
    }
  }

  /** Exactly the two FIFO warning codes give warnings. */
  lemma WarningIff(code: CodeTable, rslt: int8)
    requires Distinct(code)
    ensures Classify(code, rslt).Warning? <==>
              rslt == code(WFifoEmpty) || rslt == code(WPartialRead)
  {
    if rslt == code(WFifoEmpty) {
      ClassifyNamed(code, WFifoEmpty);
    } else if rslt == code(WPartialRead) {
      ClassifyNamed(code, WPartialRead);
    }
  }

  /** Each named error code gets an error of its own; every other value, the generic one. */
  lemma ErrorIff(code: CodeTable, rslt: int8)
    requires Distinct(code)
    ensures forall s: Status :: s.IsError() && code(s) == rslt ==> Classify(code, rslt) == Error(rslt, s)
    ensures Classify(code, rslt).Error? ==> Classify(code, rslt).cause.IsError()
    ensures Classify(code, rslt).UnknownError? <==> forall s :: code(s) != rslt
  {
    if s :| code(s) == rslt {
      ClassifyNamed(code, s);
    } else {
      ClassifyUnnamed(code, rslt);
    }
  }

  /** Two different named codes never produce the same report. */
  lemma ReportsDistinct(code: CodeTable, a: Status, b: Status)
    requires Distinct(code) && a != b
    ensures Classify(code, code(a)) != Classify(code, code(b))
  {
    ClassifyNamed(code, a);
    ClassifyNamed(code, b);
  }
}
