/** The slice of the OTLP logs schema that the traffic generator fills in:
    the export request, its resource-log groups, scopes, records, the
    severity enumeration and the 64-bit integer types of the wire format. */
module Otlp {

  datatype Option<+T> = None | Some(value: T)

  /** Go's `int64`, the type of `time.Time.UnixNano()`. */
  newtype int64 = x: int | -0x8000_0000_0000_0000 <= x < 0x8000_0000_0000_0000

  /** The `fixed64` timestamp fields of a log record. */
  newtype uint64 = x: int | 0 <= x < 0x1_0000_0000_0000_0000

  /** Go's conversion `uint64(v)`: the same 64 bits read as unsigned, so a
      reading before 1970 wraps around to the top of the range. */
  function ToUint64(v: int64): (u: uint64)
    ensures v >= 0 ==> u as int == v as int
    ensures v < 0 ==> u as int == v as int + 0x1_0000_0000_0000_0000
  {
    (v as int % 0x1_0000_0000_0000_0000) as uint64
  }

  /** `SeverityNumber` of the OpenTelemetry Logs Data Model, all 25 values. */
  datatype SeverityNumber =
    | Unspecified
    | Trace | Trace2 | Trace3 | Trace4
    | Debug | Debug2 | Debug3 | Debug4
    | Info | Info2 | Info3 | Info4
    | Warn | Warn2 | Warn3 | Warn4
    | Error | Error2 | Error3 | Error4
    | Fatal | Fatal2 | Fatal3 | Fatal4

  /** The number a severity is encoded as, on the wire and in the JSON
      control file (Go's `encoding/json` writes the enum as its integer). */
  function Number(s: SeverityNumber): (n: int)
    ensures 0 <= n < 25
  {
    match s
    case Unspecified => 0
    case Trace => 1   case Trace2 => 2   case Trace3 => 3   case Trace4 => 4
    case Debug => 5   case Debug2 => 6   case Debug3 => 7   case Debug4 => 8
    case Info => 9    case Info2 => 10   case Info3 => 11   case Info4 => 12
    case Warn => 13   case Warn2 => 14   case Warn3 => 15   case Warn4 => 16
    case Error => 17  case Error2 => 18  case Error3 => 19  case Error4 => 20
    case Fatal => 21  case Fatal2 => 22  case Fatal3 => 23  case Fatal4 => 24
  }

  /** Distinct severities are encoded as distinct numbers, so a number
      pins the severity it came from. */
  lemma NumberInjective(a: SeverityNumber, b: SeverityNumber)
    ensures Number(a) == Number(b) ==> a == b
  {
  }

  /** The generated `String()` method of the protobuf enum: the value's name. */
  function Name(s: SeverityNumber): (t: string)
    ensures |t| > |"SEVERITY_NUMBER_"| && t[..16] == "SEVERITY_NUMBER_"
  {
    match s
    case Unspecified => "SEVERITY_NUMBER_UNSPECIFIED"
    case Trace => "SEVERITY_NUMBER_TRACE"     case Trace2 => "SEVERITY_NUMBER_TRACE2"
    case Trace3 => "SEVERITY_NUMBER_TRACE3"   case Trace4 => "SEVERITY_NUMBER_TRACE4"
    case Debug => "SEVERITY_NUMBER_DEBUG"     case Debug2 => "SEVERITY_NUMBER_DEBUG2"
    case Debug3 => "SEVERITY_NUMBER_DEBUG3"   case Debug4 => "SEVERITY_NUMBER_DEBUG4"
    case Info => "SEVERITY_NUMBER_INFO"       case Info2 => "SEVERITY_NUMBER_INFO2"
    case Info3 => "SEVERITY_NUMBER_INFO3"     case Info4 => "SEVERITY_NUMBER_INFO4"
    case Warn => "SEVERITY_NUMBER_WARN"       case Warn2 => "SEVERITY_NUMBER_WARN2"
    case Warn3 => "SEVERITY_NUMBER_WARN3"     case Warn4 => "SEVERITY_NUMBER_WARN4"
    case Error => "SEVERITY_NUMBER_ERROR"     case Error2 => "SEVERITY_NUMBER_ERROR2"
    case Error3 => "SEVERITY_NUMBER_ERROR3"   case Error4 => "SEVERITY_NUMBER_ERROR4"
    case Fatal => "SEVERITY_NUMBER_FATAL"     case Fatal2 => "SEVERITY_NUMBER_FATAL2"
    case Fatal3 => "SEVERITY_NUMBER_FATAL3"   case Fatal4 => "SEVERITY_NUMBER_FATAL4"
  }

  /** Distinct severities have distinct texts. */
  lemma NameInjective(a: SeverityNumber, b: SeverityNumber)
    ensures Name(a) == Name(b) ==> a == b
  {
  }

  /** `AnyValue`; the generator only ever stores strings in it. */
  datatype AnyValue = StringValue(stringValue: string)

  datatype KeyValue = KeyValue(key: string, value: AnyValue)

  datatype Resource = Resource(attributes: seq<KeyValue>)

  datatype LogRecord = LogRecord(
    timeUnixNano: uint64,
    observedTimeUnixNano: uint64,
    severityNumber: SeverityNumber,
    severityText: string,
    body: AnyValue)

  datatype ScopeLogs = ScopeLogs(logRecords: seq<LogRecord>)

  /** One resource-log group: a resource and the scopes it emitted. */
  datatype ResourceLogs = ResourceLogs(resource: Resource, scopeLogs: seq<ScopeLogs>)

  /** The payload of one export call, and also the shape of the control file. */
  datatype ExportLogsServiceRequest = ExportLogsServiceRequest(resourceLogs: seq<ResourceLogs>)
}
