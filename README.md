# OTLP log-traffic generator, modelled in Dafny

The program sends synthetic log traffic to an OTLP (OpenTelemetry protocol)
log endpoint and can keep a control copy of what it sent. One run does this:

- It runs 10 batches. Each batch is an `ExportLogsServiceRequest` holding 2
  resource-log groups.
- Each group has two fixed resource attributes: `service.name = test-service`
  and `service.version = 0.1.0`.
- Each group has one scope holding one log record. The record's two
  timestamps come from one clock reading. Its body is a random sentence.
- The record's severity comes from the rotation DEBUG, INFO, WARN, ERROR,
  chosen by the batch index. Its severity text is the name of the severity.
- Every group is also appended to a control accumulator as it is generated.
- Each batch is exported over gRPC or HTTP (`--http`). The first failed
  export ends the run.
- When `--control-file` is given and all exports succeeded, the
  accumulator is written to that file. Finally the run reports how many
  lines it sent, and to which endpoint.

The model has four modules:

- `Otlp` (`otlp.dfy`) holds the wire types. These are the request, the
  resource-log group, the scope, the record, the `SeverityNumber`
  enumeration with its numbers and names, and the 64-bit integer types.
- `Generator` (`generator.dfy`) builds the groups and batches. It holds the
  constants (10 batches, 2 groups, the rotation table, the attributes) and
  `Generated(src, k)`, the groups of the first `k` batches.
- `Exporter` (`exporter.dfy`) holds the two transports as one tagged
  variant. Each transport comes with an oracle that answers each export
  call. The module also holds the acceptance rule and the first failing
  call.
- `Pipeline` (`pipeline.dfy`) holds `main`. `Run` is an imperative method
  with the same nested loops, local accumulator, counter and early aborts as
  the source. It is proved equal to the specification `RunSpec`, and the
  run-level properties are lemmas about `RunSpec`.

Outside inputs are parameters:

- `clock(n)` is the n-th reading of the wall clock.
- `sentences(n)` is the n-th random sentence.
- The transport oracle gives the n-th export answer.
- `Disk` gives the result of writing the control file.

A run's outcome has four parts: the export requests handed to the
transport, the groups generated into the control accumulator, the control
file written (if any), and the exit. The exit either
reports the line count and endpoint, or aborts with the fatal error.

Three details of the program's behaviour that the model keeps:

- The severity text is the protobuf enum name, such as
  `SEVERITY_NUMBER_DEBUG`, not a short word like "debug".
- The accumulator is always filled, even when no control-file path is given.
  Only the final write depends on the path.
- A batch whose protobuf encoding fails is never handed to the transport.
  The run aborts before the POST.

## Model

| member | source | states |
|---|---|---|
| `Otlp.ToUint64` | main.go:92-93 | converting a clock reading to a timestamp keeps non-negative readings and wraps negative ones by 2^64 |
| `Otlp.Number` | main.go:27-32 | every severity is encoded as a number in 0..24 |
| `Otlp.NumberInjective` | main.go:27-32 | distinct severities have distinct numbers, so a severity's number determines it |
| `Otlp.Name` | main.go:95 | every severity text starts with `SEVERITY_NUMBER_` and has more after that prefix |
| `Otlp.NameInjective` | main.go:95 | distinct severities have distinct texts, so a record's text determines its severity |
| `Generator.SeverityFor` | main.go:66 | batch `i` gets an entry of the rotation table, with number 5 + 4·(i mod 4): DEBUG 5, INFO 9, WARN 13, ERROR 17 |
| `Generator.SeverityPeriodic` | main.go:66 | the severity repeats every 4 batches |
| `Generator.SeverityOrder` | main.go:27-32 | the rotation table is strictly increasing in severity: DEBUG < INFO < WARN < ERROR |
| `Generator.SeverityTextFor` | main.go:27-32 | the severity text of batch `i` is the DEBUG/INFO/WARN/ERROR name at `i mod 4`; batches 0 and 4 are DEBUG and batch 3 is ERROR |
| `Generator.NewResourceLogs` | main.go:67-106 | a new group has the two service attributes, one scope with one record, equal emission and observed timestamps taken from the one reading, the given severity, its name as text, and the sentence as body |
| `Generator.GroupAt` | main.go:63-106 | group `j` of batch `i` uses clock reading and sentence number 2i+j, and carries the severity of batch `i` whatever `j` is |
| `Generator.Batch` | main.go:60-112 | a batch has exactly 2 groups, in generation order |
| `Generator.GeneratedLength` | main.go:107-114 | `k` batches generate exactly 2k groups |
| `Generator.GeneratedAt` | main.go:107-111 | group `j` of batch `i` sits at position 2i+j of the accumulator |
| `Generator.GeneratedPrefix` | main.go:108-111 | the accumulator only grows at the end: what `k` batches generated is a prefix of what any later batch count generated |
| `Generator.SeverityRule` | main.go:63-66 | the group at accumulator position `p` has the severity of batch `p / 2` |
| `Generator.AllWellShaped` | main.go:68-104 | every generated group has the fixed attributes, one scope with one record, equal timestamps and the severity's name as text; all groups share one resource |
| `Exporter.ExportError` | main.go:116-138 | a gRPC export succeeds iff the RPC reports no error, and an RPC error aborts with the send failure; an HTTP export succeeds iff marshalling and the POST succeed and the status is accepted; a marshal failure aborts with the marshal error (and only it does), a POST failure with the send failure, and a status other than 200 or 204 with that status code |
| `Exporter.HttpStatusRule` | main.go:129-131 | an HTTP answer with a status code is accepted iff the code is 200 or 204; any other code aborts with that code |
| `Exporter.FirstFailure` | main.go:59-138 | the first failing export among the first `n` calls: it fails and every earlier call succeeded; no result means all `n` calls succeeded |
| `Exporter.FirstFailureAt` | main.go:116-138 | a failing call that follows only successful calls is the first failure of the run |
| `Pipeline.RequestsLength` | main.go:59-62 | `k` batches give exactly `k` export requests |
| `Pipeline.RequestsAt` | main.go:60-107 | export request `i` carries exactly the groups of batch `i` |
| `Pipeline.RequestsPrefix` | main.go:116-138 | the requests of an aborted run are a prefix of those of a complete run |
| `Pipeline.FlattenRequests` | main.go:107-111 | after `k` batches the accumulator equals the concatenation of the `k` exported batches, in order |
| `Pipeline.Run` | main.go:54-153 | the nested loops, counter, per-batch export with abort, and final write produce exactly the outcome `RunSpec` specifies |
| `Pipeline.ControlMirrorsExports` | main.go:108-111 | a written control file holds exactly the accumulated groups, which are exactly the groups of every exported request, in the order sent |
| `Pipeline.PersistGating` | main.go:142-151 | a control file is written iff a path was given, dialling and all 10 exports succeeded and the disk write succeeds; it goes to that path |
| `Pipeline.SuccessTotals` | main.go:114-153 | a run ends by reporting iff dialling and all 10 exports succeed and, when a path was given, the control file is written; such a run sent 10 requests of 2 groups and reports 20 lines with the endpoint |
| `Pipeline.FailFast` | main.go:116-138 | when export `k` is the first to fail, the run aborts with its error and writes no control file; the accumulator holds exactly the 2(k+1) groups of batches 0 to `k`, so nothing after batch `k` was generated; the requests sent are a prefix of batches 0 to `k`: `k + 1` requests were handed over, or `k` when batch `k` could not be marshalled |
| `Pipeline.ExportedSeverity` | main.go:60-107 | every group of exported request `i` is well shaped and has severity `SeverityFor(i)` and its name as text |
| `Pipeline.GrpcFailsOnBatchThree` | main.go:133-137 | a gRPC error on batch 3 ends the run after 4 export calls, with no control file |
| `Pipeline.HttpFailsOnSecondPost` | main.go:129-131 | status 500 on the second POST ends the run after 2 export calls, with that status and no control file |
| `Pipeline.HttpAllNoContent` | main.go:116-153 | if every POST gets 204 and the disk works, the run reports 20 lines and writes those 20 groups, exactly as exported |

## Left out

- The gRPC client and connection are not modelled. `grpc.NewClient` is
  kept only as a success or failure flag. `conn.Close` and the `Export` RPC
  are network I/O; an oracle gives each call's answer.
- The HTTP POST through `http.DefaultClient` is network I/O, and the
  response body that the source never closes is not modelled. The protobuf
  encoding by `proto.Marshal` is not modelled. An oracle gives a marshal
  failure, a send failure or a status code per call.
- The JSON encoding by `json.MarshalIndent` and the write by `os.WriteFile`
  are not modelled. The control file is its content, the accumulated
  request. An oracle gives a JSON failure, a write failure or success.
- The wall clock (`time.Now`) and the random sentence generator
  (`faker.Sentence`) are not modelled. They are supplied functions of the
  call number.
- Flag parsing is not modelled. `Config` holds the three values it supplies.
- Logging (`log.Fatalf`, `log.Println`) and the final `println` are not
  modelled as text. A fatal error is the `Aborted` exit carrying its cause.
  The final report is the `Sent` exit carrying the line count and endpoint.
- The process exit status and the deferred `conn.Close` are not modelled.
- Only the OTLP fields the generator sets are modelled. Trace and span IDs,
  flags, record attributes, dropped counts and schema URLs are not
  represented. `AnyValue` has only its string variant.
- Pointer sharing is not modelled. In the source, the batch and the
  accumulator share one pointer per group. The model uses values. Nothing
  changes a group after it is appended, so this makes no observable
  difference.
