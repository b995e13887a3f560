/** The batch generator: how each resource-log group is assembled, which
    severity a batch gets, and the sequence of groups produced by the first
    k batches. The wall clock and the sentence generator are supplied as
    functions: `clock(n)` is the n-th reading of `time.Now()` and
    `sentences(n)` the n-th result of `faker.Sentence()`. */
module Generator {
  import opened Otlp

  /** Number of export batches sent by one run. */
  const Batches: nat := 10

  /** Number of resource-log groups in every batch. */
  const GroupsPerBatch: nat := 2

  /** The severity rotation table, in this order. */
  const SeverityTable: seq<SeverityNumber> := [Debug, Info, Warn, Error]

  /** The two resource attributes every group carries. */
  const ServiceAttributes: seq<KeyValue> := [
    KeyValue("service.name", StringValue("test-service")),
    KeyValue("service.version", StringValue("0.1.0"))
  ]

  datatype Sources = Sources(clock: nat -> int64, sentences: nat -> string)

  /** The severity of every record of batch `i`: `SeverityTable[i % 4]`. */
  function SeverityFor(i: nat): (s: SeverityNumber)
    ensures s in SeverityTable
    ensures Number(s) == 5 + 4 * (i % 4)
  {
    SeverityTable[i % |SeverityTable|]
  }

  /** The severity depends on the batch index modulo the table length only. */
  lemma SeverityPeriodic(i: nat, m: nat)
    ensures SeverityFor(i + 4 * m) == SeverityFor(i)
  {
  }

  /** The rotation goes up strictly: DEBUG < INFO < WARN < ERROR. */
  lemma SeverityOrder(a: nat, b: nat)
    requires a < b < |SeverityTable|
    ensures Number(SeverityTable[a]) < Number(SeverityTable[b])
  {
  }

  /** The only record of a group that has exactly one scope holding one record. */
  function RecordOf(g: ResourceLogs): LogRecord
    requires |g.scopeLogs| == 1 && |g.scopeLogs[0].logRecords| == 1
  {
    g.scopeLogs[0].logRecords[0]
  }

  /** What every group generated by a run looks like. */
  ghost predicate WellShaped(g: ResourceLogs) {
    g.resource.attributes == ServiceAttributes &&
    |g.scopeLogs| == 1 && |g.scopeLogs[0].logRecords| == 1 &&
    RecordOf(g).timeUnixNano == RecordOf(g).observedTimeUnixNano &&
    RecordOf(g).severityNumber in SeverityTable &&
    RecordOf(g).severityText == Name(RecordOf(g).severityNumber)
  }

  /** One group built from one clock reading, a severity and a sentence. */
  function NewResourceLogs(now: int64, lvl: SeverityNumber, sentence: string): (g: ResourceLogs)
    requires lvl in SeverityTable
    ensures WellShaped(g)
    ensures RecordOf(g).timeUnixNano == ToUint64(now)
    ensures RecordOf(g).severityNumber == lvl
    ensures RecordOf(g).body == StringValue(sentence)
  {
    ResourceLogs(
      Resource(ServiceAttributes),
      [ScopeLogs([LogRecord(ToUint64(now), ToUint64(now), lvl, Name(lvl), StringValue(sentence))])])
  }

  /** The index of the clock reading and the sentence used by group `j` of batch `i`. */
  function Draw(i: nat, j: nat): nat {
    GroupsPerBatch * i + j
  }

  /** Group `j` of batch `i`. */
  function GroupAt(src: Sources, i: nat, j: nat): (g: ResourceLogs)
    ensures WellShaped(g)
    ensures RecordOf(g).severityNumber == SeverityFor(i)
    ensures RecordOf(g).timeUnixNano == ToUint64(src.clock(Draw(i, j)))
    ensures RecordOf(g).body == StringValue(src.sentences(Draw(i, j)))
  {
    NewResourceLogs(src.clock(Draw(i, j)), SeverityFor(i), src.sentences(Draw(i, j)))
  }

  /** The groups of batch `i`, in generation order. */
  function Batch(src: Sources, i: nat): (b: seq<ResourceLogs>)
    ensures |b| == GroupsPerBatch
    ensures forall j :: 0 <= j < |b| ==> b[j] == GroupAt(src, i, j)
  {
    seq(GroupsPerBatch, j requires 0 <= j => GroupAt(src, i, j))
  }

  /** Every group generated by the first `k` batches, in generation order. */
  function Generated(src: Sources, k: nat): seq<ResourceLogs> {
    if k == 0 then [] else Generated(src, k - 1) + Batch(src, k - 1)
  }

  lemma {:induction false} GeneratedLength(src: Sources, k: nat)
    ensures |Generated(src, k)| == GroupsPerBatch * k
  {
    if k > 0 {
      GeneratedLength(src, k - 1);
    }
  }

  /** Group `j` of batch `i` sits at position `Draw(i, j)` of what `k > i`
      batches generated. */
  lemma {:induction false} GeneratedAt(src: Sources, k: nat, i: nat, j: nat)
    requires i < k && j < GroupsPerBatch
    ensures |Generated(src, k)| == GroupsPerBatch * k
    ensures Generated(src, k)[Draw(i, j)] == GroupAt(src, i, j)
  {
    GeneratedLength(src, k);
    GeneratedLength(src, k - 1);
    if i < k - 1 {
      GeneratedAt(src, k - 1, i, j);
    }
  }

  /** Later batches only append: the first `k` batches are a prefix of the first `m`. */
  lemma {:induction false} GeneratedPrefix(src: Sources, k: nat, m: nat)
    requires k <= m
    ensures Generated(src, k) <= Generated(src, m)
  {
    if k < m {
      GeneratedPrefix(src, k, m - 1);
    }
  }

  /** The per-batch severity rule: each record generated at position `p`
      carries the severity of batch `p / 2`, whichever group it is. */
  lemma SeverityRule(src: Sources, k: nat, p: nat)
    requires p < GroupsPerBatch * k
    ensures p < |Generated(src, k)|
    ensures WellShaped(Generated(src, k)[p])
    ensures RecordOf(Generated(src, k)[p]).severityNumber == SeverityFor(p / GroupsPerBatch)
  {
    GeneratedAt(src, k, p / GroupsPerBatch, p % GroupsPerBatch);
  }

  /** The record-level equalities hold of every group of the run, and all
      groups carry the same resource attributes. */
  lemma {:induction false} AllWellShaped(src: Sources, k: nat)
    ensures forall g :: g in Generated(src, k) ==> WellShaped(g)
    ensures forall a, b :: a in Generated(src, k) && b in Generated(src, k) ==>
      a.resource == b.resource
  {
    if k > 0 {
      AllWellShaped(src, k - 1);
    }
  }

  /** The severity text of batch `i` is the name of its severity: the
      rotation DEBUG, INFO, WARN, ERROR, so batches 0 and 4 are DEBUG and
      batch 3 is ERROR. */
  lemma SeverityTextFor(i: nat)
    ensures Name(SeverityFor(i)) ==
      ["SEVERITY_NUMBER_DEBUG", "SEVERITY_NUMBER_INFO", "SEVERITY_NUMBER_WARN", "SEVERITY_NUMBER_ERROR"][i % 4]
    ensures SeverityFor(0) == SeverityFor(4) == Debug && SeverityFor(3) == Error
  {
  }
}
