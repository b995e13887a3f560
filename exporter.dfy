/** The exporter: the two transports, the answer each one may get for an
    export call, and the rule that decides whether the run goes on. The
    network itself is an oracle: the n-th export call (0-based) gets the
    n-th answer. */
module Exporter {
  import opened Otlp

  const StatusOK: int := 200
  const StatusNoContent: int := 204

  /** What one HTTP export produces: `proto.Marshal` fails, the POST fails,
      or the server answers with a status code. */
  datatype HttpReply = MarshalError | PostError | Response(statusCode: int)

  /** The transport chosen once by the `--http` flag, with its oracle.
      `connectFails` is the outcome of `grpc.NewClient`; `exportFails(n)`
      says whether the n-th `Export` RPC returned an error. */
  datatype Transport =
    | Grpc(connectFails: bool, exportFails: nat -> bool)
    | Http(replies: nat -> HttpReply)

  /** The fatal conditions of a run, one per `log.Fatalf` call. */
  datatype Fatal =
    | ConnectFailed
    | MarshalFailed
    | SendFailed
    | UnexpectedStatus(code: int)
    | ControlMarshalFailed
    | ControlWriteFailed

  /** The status codes an HTTP export accepts. */
  predicate Accepted(code: int) {
    code == StatusOK || code == StatusNoContent
  }

  /** The error export call `n` ends with, or `None` when the batch went through. */
  function ExportError(t: Transport, n: nat): (e: Option<Fatal>)
    ensures t.Grpc? ==> (e == None <==> !t.exportFails(n))
    ensures t.Http? ==> (e == None <==> t.replies(n).Response? && Accepted(t.replies(n).statusCode))
    ensures e.Some? ==> e.value in {MarshalFailed, SendFailed} || e.value.UnexpectedStatus?
    ensures e.Some? && e.value.UnexpectedStatus? ==>
      t.Http? && t.replies(n).Response? && e.value == UnexpectedStatus(t.replies(n).statusCode) && !Accepted(e.value.code)
    ensures t.Grpc? && t.exportFails(n) ==> e == Some(SendFailed)
    ensures t.Http? ==> (e == Some(MarshalFailed) <==> t.replies(n) == MarshalError)
    ensures t.Http? && t.replies(n) == PostError ==> e == Some(SendFailed)
    ensures t.Http? && t.replies(n).Response? && !Accepted(t.replies(n).statusCode) ==>
      e == Some(UnexpectedStatus(t.replies(n).statusCode))
  {
    match t
    case Grpc(_, fails) =>
      if fails(n) then Some(SendFailed) else None
    case Http(replies) =>
      match replies(n)
      case MarshalError => Some(MarshalFailed)
      case PostError => Some(SendFailed)
      case Response(code) =>
        if code != StatusOK && code != StatusNoContent then Some(UnexpectedStatus(code)) else None
  }

  /** An HTTP answer with a status code is accepted exactly for 200 and 204. */
  lemma HttpStatusRule(replies: nat -> HttpReply, n: nat, code: int)
    requires replies(n) == Response(code)
    ensures ExportError(Http(replies), n) == None <==> code == 200 || code == 204
    ensures ExportError(Http(replies), n) != None ==> ExportError(Http(replies), n) == Some(UnexpectedStatus(code))
  {
  }

  /** The first of the export calls `0 .. n-1` that fails, if any. */
  function FirstFailure(t: Transport, n: nat): (r: Option<nat>)
    ensures r.Some? ==> r.value < n && ExportError(t, r.value).Some?
    ensures r.Some? ==> forall k :: 0 <= k < r.value ==> ExportError(t, k) == None
    ensures r.None? ==> forall k :: 0 <= k < n ==> ExportError(t, k) == None
  {
    if n == 0 then None
    else
      match FirstFailure(t, n - 1)
      case Some(k) => Some(k)
      case None => if ExportError(t, n - 1).Some? then Some(n - 1) else None
  }

  /** The first failure is determined by the calls up to it: a call that
      fails after only successful ones is the first failure of any longer run. */
  lemma FirstFailureAt(t: Transport, n: nat, k: nat)
    requires k < n
    requires ExportError(t, k).Some?
    requires forall i :: 0 <= i < k ==> ExportError(t, i) == None
    ensures FirstFailure(t, n) == Some(k)
  {
  }
}
