/**
 * The measurement documents the agent writes to its metrics collection.
 *
 * A document is the dictionary from field names to values that the agent
 * builds and hands to the collection: a field is either present with a value
 * or absent. The identifier the database driver adds on insertion is not part
 * of it. The predicates below state the shape every such document has.
 */
module Records {

  /** The clock reading stored in the "timestamp" field; its value is opaque here. */
  type Timestamp = int

  /** The kinds of values the agent puts in a document; floats are modelled as reals. */
  datatype Value =
    | Str(s: string)
    | Float(x: real)
    | Int(n: int)
    | DateTime(t: Timestamp)

  type Document = map<string, Value>

  // Field names, spelled as in the stored documents.
  const TimestampField := "timestamp"
  const TargetField := "target"
  const MetricTypeField := "metric_type"
  const ValueField := "value"
  const StatusField := "status"
  const PacketLossField := "packet_loss"
  const LoadTimeField := "load_time"
  const StatusCodeField := "status_code"
  const ErrorMessageField := "error_message"

  // Values of "metric_type".
  const PingMetric := "ping"
  const HttpMetric := "http_response"

  // Values of "status".
  const Success := "success"
  const Failed := "failed"
  const Error := "error"

  // Sentinels.
  const Unmeasured: real := -1.0
  const NoLoss: real := 0.0
  const TotalLoss: real := 100.0
  const NoStatusCode: int := 0

  /** The fields every document carries: when, what was probed, which probe, and the outcome. */
  predicate CommonFields(d: Document) {
    && TimestampField in d && d[TimestampField].DateTime?
    && TargetField in d && d[TargetField].Str?
    && MetricTypeField in d
    && StatusField in d
  }

  /**
   * A ping document: the ping field group ("value", and "packet_loss" except
   * on the error path), never an HTTP field; "error_message" exactly on the
   * error path; the sentinel -1.0 in "value" whenever the ping did not succeed.
   */
  predicate PingRecord(d: Document) {
    && CommonFields(d)
    && d.Keys <= {TimestampField, TargetField, MetricTypeField, ValueField, StatusField, PacketLossField, ErrorMessageField}
    && d[MetricTypeField] == Str(PingMetric)
    && d[StatusField] in {Str(Success), Str(Failed), Str(Error)}
    && ValueField in d && d[ValueField].Float?
    && (d[StatusField] != Str(Success) ==> d[ValueField] == Float(Unmeasured))
    && (PacketLossField in d <==> d[StatusField] != Str(Error))
    && (PacketLossField in d ==>
          d[PacketLossField] == Float(if d[StatusField] == Str(Success) then NoLoss else TotalLoss))
    && (ErrorMessageField in d <==> d[StatusField] == Str(Error))
    && (ErrorMessageField in d ==> d[ErrorMessageField].Str?)
  }

  /**
   * An HTTP document: the HTTP field group ("load_time", "status_code"),
   * never a ping field; status is "success" or "failed", never "error"; a
   * document with "error_message" is a failed request carrying the sentinels.
   */
  predicate HttpRecord(d: Document) {
    && CommonFields(d)
    && d.Keys <= {TimestampField, TargetField, MetricTypeField, LoadTimeField, StatusCodeField, StatusField, ErrorMessageField}
    && d[MetricTypeField] == Str(HttpMetric)
    && d[StatusField] in {Str(Success), Str(Failed)}
    && LoadTimeField in d && d[LoadTimeField].Float?
    && StatusCodeField in d && d[StatusCodeField].Int?
    && (ErrorMessageField in d ==>
          && d[ErrorMessageField].Str?
          && d[StatusField] == Str(Failed)
          && d[LoadTimeField] == Float(Unmeasured)
          && d[StatusCodeField] == Int(NoStatusCode))
  }

  /** Every document the agent writes is one of the two kinds. */
  predicate MeasurementRecord(d: Document) {
    PingRecord(d) || HttpRecord(d)
  }

  /**
   * The two field groups never mix, and which one a document carries is
   * decided by its "metric_type".
   */
  lemma FieldGroupsExclusive(d: Document)
    requires MeasurementRecord(d)
    ensures d[MetricTypeField] == Str(PingMetric) <==> ValueField in d
    ensures d[MetricTypeField] == Str(HttpMetric) <==> LoadTimeField in d
    ensures ValueField in d ==> LoadTimeField !in d && StatusCodeField !in d
    ensures LoadTimeField in d ==> StatusCodeField in d && ValueField !in d && PacketLossField !in d
    ensures d[StatusField] == Str(Error) ==> d[MetricTypeField] == Str(PingMetric)
  {
  }
}
