/** One run of the traffic generator: dial (gRPC only), then for each of the
    10 batches generate its groups, append them to the control accumulator,
    count them and export the batch, aborting on the first failure; finally
    persist the accumulator when a control-file path was given.

    The observable outcome of a run is the sequence of export requests handed
    to the transport, the groups generated into the control accumulator, the
    control file written (if any), and how the process ends: it reports the number of lines sent and the endpoint, or it aborts
    with the error of the `log.Fatalf` that stopped it. */
module Pipeline {
  import opened Otlp
  import opened Generator
  import opened Exporter

  /** The outcome of persisting the control file: `json.MarshalIndent`
      fails, `os.WriteFile` fails, or the file is written. */
  datatype Disk = DiskOk | JsonFails | WriteFails

  /** The command line: `--http` picks the transport variant, `--endpoint`
      and `--control-file` are kept as given. */
  datatype Config = Config(transport: Transport, endpoint: string, controlFilePath: string)

  /** Everything the run reads from outside: clock, sentences and disk. */
  datatype Env = Env(sources: Sources, disk: Disk)

  datatype ControlFile = ControlFile(path: string, content: ExportLogsServiceRequest)

  datatype Exit = Sent(totalLines: nat, endpoint: string) | Aborted(reason: Fatal)

  datatype Outcome = Outcome(
    exported: seq<ExportLogsServiceRequest>,
    accumulated: seq<ResourceLogs>,
    control: Option<ControlFile>,
    exit: Exit)

  /** The export requests of the first `k` batches, one request per batch. */
  function Requests(src: Sources, k: nat): seq<ExportLogsServiceRequest> {
    if k == 0 then [] else Requests(src, k - 1) + [ExportLogsServiceRequest(Batch(src, k - 1))]
  }

  /** All groups carried by a sequence of export requests, in order. */
  function Flatten(reqs: seq<ExportLogsServiceRequest>): seq<ResourceLogs> {
    if reqs == [] then [] else Flatten(reqs[..|reqs| - 1]) + reqs[|reqs| - 1].resourceLogs
  }

  lemma {:induction false} RequestsAt(src: Sources, k: nat, i: nat)
    requires i < k
    ensures |Requests(src, k)| == k
    ensures Requests(src, k)[i] == ExportLogsServiceRequest(Batch(src, i))
  {
    RequestsLength(src, k);
    if i < k - 1 {
      RequestsAt(src, k - 1, i);
    }
  }

  lemma {:induction false} RequestsLength(src: Sources, k: nat)
    ensures |Requests(src, k)| == k
  {
    if k > 0 {
      RequestsLength(src, k - 1);
    }
  }

  lemma {:induction false} RequestsPrefix(src: Sources, k: nat, m: nat)
    requires k <= m
    ensures Requests(src, k) <= Requests(src, m)
  {
    if k < m {
      RequestsPrefix(src, k, m - 1);
    }
  }

  /** What the accumulator holds after `k` batches is exactly what their
      `k` export requests carried, in the same order. */
  lemma {:induction false} FlattenRequests(src: Sources, k: nat)
    ensures Flatten(Requests(src, k)) == Generated(src, k)
  {
    if k > 0 {
      FlattenRequests(src, k - 1);
      var r := Requests(src, k);
      assert r[..|r| - 1] == Requests(src, k - 1);
    }
  }

  /** The specification of a run. */
  function RunSpec(cfg: Config, env: Env): Outcome {
    var t := cfg.transport;
    var src := env.sources;
    if t.Grpc? && t.connectFails then
      Outcome([], [], None, Aborted(ConnectFailed))
    else
      match FirstFailure(t, Batches)
      case Some(k) =>
        var e := ExportError(t, k).value;
        // A batch that could not be marshalled never reaches the transport.
        Outcome(Requests(src, if e == MarshalFailed then k else k + 1), Generated(src, k + 1),
                None, Aborted(e))
      case None =>
        var exported := Requests(src, Batches);
        var accumulated := Generated(src, Batches);
        var lines := |Generated(src, Batches)|;
        if cfg.controlFilePath == "" then
          Outcome(exported, accumulated, None, Sent(lines, cfg.endpoint))
        else
          match env.disk
          case JsonFails => Outcome(exported, accumulated, None, Aborted(ControlMarshalFailed))
          case WriteFails => Outcome(exported, accumulated, None, Aborted(ControlWriteFailed))
          case DiskOk =>
            Outcome(exported, accumulated,
                    Some(ControlFile(cfg.controlFilePath, ExportLogsServiceRequest(accumulated))),
                    Sent(lines, cfg.endpoint))
  }

  /** The body of `main`: the nested generation loops, the export step after
      each batch, and the final persistence of the control accumulator. */
  method Run(cfg: Config, env: Env) returns (out: Outcome)
    ensures out == RunSpec(cfg, env)
  {
    var t := cfg.transport;
    var src := env.sources;
    if t.Grpc? && t.connectFails {
      return Outcome([], [], None, Aborted(ConnectFailed));
    }

    var controlFile := ExportLogsServiceRequest([]);
    var exported: seq<ExportLogsServiceRequest> := [];
    var totalLines: nat := 0;
    var i := 0;
    while i < Batches
      invariant 0 <= i <= Batches
      invariant controlFile.resourceLogs == Generated(src, i)
      invariant exported == Requests(src, i)
      invariant totalLines == |controlFile.resourceLogs|
      invariant forall k :: 0 <= k < i ==> ExportError(t, k) == None
    {
      var data := ExportLogsServiceRequest([]);
      var j := 0;
      while j < GroupsPerBatch
        invariant 0 <= j <= GroupsPerBatch
        invariant data.resourceLogs == Batch(src, i)[..j]
        invariant controlFile.resourceLogs == Generated(src, i) + data.resourceLogs
      {
        var now := src.clock(Draw(i, j));
        var lvl := SeverityTable[i % |SeverityTable|];
        var resourceLogs := NewResourceLogs(now, lvl, src.sentences(Draw(i, j)));
        data := data.(resourceLogs := data.resourceLogs + [resourceLogs]);
        controlFile := controlFile.(resourceLogs := controlFile.resourceLogs + [resourceLogs]);
        j := j + 1;
      }
      assert data.resourceLogs == Batch(src, i);

      totalLines := totalLines + |data.resourceLogs|;

      if t.Http? {
        match t.replies(i)
        case MarshalError =>
          FirstFailureAt(t, Batches, i);
          return Outcome(exported, controlFile.resourceLogs, None, Aborted(MarshalFailed));
        case PostError =>
          FirstFailureAt(t, Batches, i);
          return Outcome(exported + [data], controlFile.resourceLogs, None, Aborted(SendFailed));
        case Response(code) =>
          if code != StatusOK && code != StatusNoContent {
            FirstFailureAt(t, Batches, i);
            return Outcome(exported + [data], controlFile.resourceLogs, None,
                           Aborted(UnexpectedStatus(code)));
          }
      } else {
        if t.exportFails(i) {
          FirstFailureAt(t, Batches, i);
          return Outcome(exported + [data], controlFile.resourceLogs, None, Aborted(SendFailed));
        }
      }
      exported := exported + [data];
      i := i + 1;
    }

    if cfg.controlFilePath != "" {
      match env.disk
      case JsonFails =>
        return Outcome(exported, controlFile.resourceLogs, None, Aborted(ControlMarshalFailed));
      case WriteFails =>
        return Outcome(exported, controlFile.resourceLogs, None, Aborted(ControlWriteFailed));
      case DiskOk =>
        return Outcome(exported, controlFile.resourceLogs, Some(ControlFile(cfg.controlFilePath, controlFile)),
                       Sent(totalLines, cfg.endpoint));
    }
    return Outcome(exported, controlFile.resourceLogs, None, Sent(totalLines, cfg.endpoint));
  }

  /** Whether dialling and every one of the 10 exports succeed. */
  predicate AllExportsSucceed(t: Transport) {
    !(t.Grpc? && t.connectFails) && FirstFailure(t, Batches) == None
  }

  /** The control file mirrors the run: it holds exactly the groups of all
      export requests, in the order they were sent. */
  lemma ControlMirrorsExports(cfg: Config, env: Env)
    ensures var out := RunSpec(cfg, env);
      out.control.Some? ==>
        out.control.value.content.resourceLogs == out.accumulated == Flatten(out.exported)
  {
    FlattenRequests(env.sources, Batches);
  }

  /** Fail-fast gating of the final write: a control file is written if and
      only if a path was given, every export succeeded and the disk accepted
      it; it is written to that path. */
  lemma PersistGating(cfg: Config, env: Env)
    ensures var out := RunSpec(cfg, env);
      out.control.Some? <==>
        cfg.controlFilePath != "" && AllExportsSucceed(cfg.transport) && env.disk == DiskOk
    ensures var out := RunSpec(cfg, env);
      out.control.Some? ==> out.control.value.path == cfg.controlFilePath
  {
  }

  /** A run ends by reporting exactly when dialling and all 10 exports
      succeed and the control file, if asked for, is written; it then has
      sent 10 batches of 2 groups each and reports 20 lines. */
  lemma {:induction false} SuccessTotals(cfg: Config, env: Env)
    ensures var out := RunSpec(cfg, env);
      out.exit.Sent? <==>
        AllExportsSucceed(cfg.transport) && (cfg.controlFilePath == "" || env.disk == DiskOk)
    ensures var out := RunSpec(cfg, env);
      out.exit.Sent? ==>
        out.exit == Sent(20, cfg.endpoint) &&
        |out.exported| == Batches &&
        (forall i :: 0 <= i < |out.exported| ==> |out.exported[i].resourceLogs| == GroupsPerBatch)
  {
    GeneratedLength(env.sources, Batches);
    RequestsLength(env.sources, Batches);
    forall i | 0 <= i < Batches
      ensures |Requests(env.sources, Batches)[i].resourceLogs| == GroupsPerBatch
    {
      RequestsAt(env.sources, Batches, i);
    }
  }

  /** The first failing export ends the run at once: batch `k` is the last
      one generated (the accumulator holds batches 0 to k and nothing more)
      and the last one handed to the transport, nothing is persisted and the
      run aborts with its error. */
  lemma FailFast(cfg: Config, env: Env, k: nat)
    requires k < Batches
    requires !(cfg.transport.Grpc? && cfg.transport.connectFails)
    requires ExportError(cfg.transport, k).Some?
    requires forall i :: 0 <= i < k ==> ExportError(cfg.transport, i) == None
    ensures var out := RunSpec(cfg, env);
      out.exit == Aborted(ExportError(cfg.transport, k).value) &&
      out.control == None &&
      out.accumulated == Generated(env.sources, k + 1) &&
      |out.accumulated| == GroupsPerBatch * (k + 1) &&
      out.exported <= Requests(env.sources, k + 1) &&
      |out.exported| == (if ExportError(cfg.transport, k) == Some(MarshalFailed) then k else k + 1)
  {
    FirstFailureAt(cfg.transport, Batches, k);
    RequestsLength(env.sources, k);
    RequestsLength(env.sources, k + 1);
    RequestsPrefix(env.sources, k, k + 1);
    GeneratedLength(env.sources, k + 1);
  }

  /** Every request the run hands to the transport is a batch of
      well-shaped groups whose records all carry the severity of that
      batch's index. */
  lemma ExportedSeverity(cfg: Config, env: Env, i: nat, j: nat)
    requires i < |RunSpec(cfg, env).exported|
    requires j < |RunSpec(cfg, env).exported[i].resourceLogs|
    ensures var g := RunSpec(cfg, env).exported[i].resourceLogs[j];
      WellShaped(g) && RecordOf(g).severityNumber == SeverityFor(i) &&
      RecordOf(g).severityText == Name(SeverityFor(i))
  {
    var out := RunSpec(cfg, env);
    if !(cfg.transport.Grpc? && cfg.transport.connectFails) {
      var n := |out.exported|;
      match FirstFailure(cfg.transport, Batches) {
        case Some(k) =>
          RequestsLength(env.sources, k);
          RequestsLength(env.sources, k + 1);
        case None =>
          RequestsLength(env.sources, Batches);
      }
      assert out.exported == Requests(env.sources, n);
      RequestsAt(env.sources, n, i);
      assert out.exported[i].resourceLogs[j] == GroupAt(env.sources, i, j);
    }
  }

  /** gRPC export that errors on batch 3: the run stops after that batch's
      export call, so 4 batches reached the transport and no control file is
      written even though a path was given. */
  lemma GrpcFailsOnBatchThree(src: Sources, disk: Disk, endpoint: string, path: string)
    ensures var out := RunSpec(Config(Grpc(false, n => n == 3), endpoint, path), Env(src, disk));
      out.exit == Aborted(SendFailed) && |out.exported| == 4 && out.control == None
  {
    var cfg := Config(Grpc(false, n => n == 3), endpoint, path);
    FailFast(cfg, Env(src, disk), 3);
  }

  /** HTTP server answering 500 to the second POST: the run aborts after two
      export calls with the unexpected status, and writes no control file. */
  lemma HttpFailsOnSecondPost(src: Sources, disk: Disk, endpoint: string, path: string)
    ensures var out := RunSpec(
        Config(Http(n => if n == 1 then Response(500) else Response(200)), endpoint, path),
        Env(src, disk));
      out.exit == Aborted(UnexpectedStatus(500)) && |out.exported| == 2 && out.control == None
  {
    var cfg := Config(Http(n => if n == 1 then Response(500) else Response(200)), endpoint, path);
    FailFast(cfg, Env(src, disk), 1);
  }

  /** An HTTP server answering 204 to every POST, with a control-file path
      and a working disk: the run reports 20 lines and the control file holds
      those 20 groups, exactly the ones exported. */
  lemma HttpAllNoContent(src: Sources, endpoint: string, path: string)
    requires path != ""
    ensures var out := RunSpec(Config(Http(n => Response(204)), endpoint, path), Env(src, DiskOk));
      out.exit == Sent(20, endpoint) &&
      out.control.Some? && out.control.value.path == path &&
      |out.control.value.content.resourceLogs| == 20 &&
      out.control.value.content.resourceLogs == Flatten(out.exported)
  {
    var cfg := Config(Http(n => Response(204)), endpoint, path);
    var env := Env(src, DiskOk);
    PersistGating(cfg, env);
    SuccessTotals(cfg, env);
    ControlMirrorsExports(cfg, env);
    GeneratedLength(src, Batches);
  }
}
