/**
 * The decisions inside the two probes: how the outcome of a ping or of an
 * HTTP request becomes the one document the probe writes.
 *
 * The network calls themselves are not modelled; their outcomes are inputs.
 */
module Probes {

  import opened Wrappers
  import opened Records

  /** What the ping call produced: a round-trip time in ms, no reply in time, or a raised fault. */
  datatype PingOutcome = Delay(ms: real) | NoReply | Fault(message: string)

  /** What the HTTP GET produced: a response with its status code and load time in ms, or a request exception. */
  datatype HttpOutcome = Response(code: int, loadTime: real) | RequestError(message: string)

  /** The overall status of an HTTP response: success on the half-open range [200, 400). */
  function HttpStatus(statusCode: int): (s: string) {
    if 200 <= statusCode < 400 then Success else Failed
  }

  /** The document the ping probe of `host` writes for `ping`, stamped `now`. */
  function PingDocument(host: string, ping: PingOutcome, now: Timestamp): (d: Document)
    ensures PingRecord(d)
    ensures d[TimestampField] == DateTime(now) && d[TargetField] == Str(host)
  {
    match ping
    case Delay(ms) =>
      map[TimestampField := DateTime(now), TargetField := Str(host), MetricTypeField := Str(PingMetric),
          ValueField := Float(ms), StatusField := Str(Success), PacketLossField := Float(NoLoss)]
    case NoReply =>
      map[TimestampField := DateTime(now), TargetField := Str(host), MetricTypeField := Str(PingMetric),
          ValueField := Float(Unmeasured), StatusField := Str(Failed), PacketLossField := Float(TotalLoss)]
    case Fault(message) =>
      map[TimestampField := DateTime(now), TargetField := Str(host), MetricTypeField := Str(PingMetric),
          ValueField := Float(Unmeasured), StatusField := Str(Error), ErrorMessageField := Str(message)]
  }

  /** The document the HTTP probe of `url` writes for `http`, stamped `now`. */
  function HttpDocument(url: string, http: HttpOutcome, now: Timestamp): (d: Document)
    ensures HttpRecord(d)
    ensures d[TimestampField] == DateTime(now) && d[TargetField] == Str(url)
  {
    match http
    case Response(code, loadTime) =>
      map[TimestampField := DateTime(now), TargetField := Str(url), MetricTypeField := Str(HttpMetric),
          LoadTimeField := Float(loadTime), StatusCodeField := Int(code), StatusField := Str(HttpStatus(code))]
    case RequestError(message) =>
      map[TimestampField := DateTime(now), TargetField := Str(url), MetricTypeField := Str(HttpMetric),
          LoadTimeField := Float(Unmeasured), StatusCodeField := Int(NoStatusCode), StatusField := Str(Failed),
          ErrorMessageField := Str(message)]
  }

  /** Reads a stored ping document back as the outcome it records. */
  function DecodePing(d: Document): (o: Option<PingOutcome>) {
    if StatusField !in d then None
    else if d[StatusField] == Str(Success) && ValueField in d && d[ValueField].Float? then
      Some(Delay(d[ValueField].x))
    else if d[StatusField] == Str(Failed) then
      Some(NoReply)
    else if d[StatusField] == Str(Error) && ErrorMessageField in d && d[ErrorMessageField].Str? then
      Some(Fault(d[ErrorMessageField].s))
    else None
  }

  /** Reads a stored HTTP document back as the outcome it records. */
  function DecodeHttp(d: Document): (o: Option<HttpOutcome>) {
    if ErrorMessageField in d && d[ErrorMessageField].Str? then
      Some(RequestError(d[ErrorMessageField].s))
    else if StatusCodeField in d && d[StatusCodeField].Int? && LoadTimeField in d && d[LoadTimeField].Float? then
      Some(Response(d[StatusCodeField].n, d[LoadTimeField].x))
    else None
  }

  // ---------------------------------------------------------------- ping

  /** A returned delay is a success with that delay and no packet loss. */
  lemma PingDelayRecord(host: string, ms: real, now: Timestamp)
    ensures var d := PingDocument(host, Delay(ms), now);
      && d.Keys == {TimestampField, TargetField, MetricTypeField, ValueField, StatusField, PacketLossField}
      && d[MetricTypeField] == Str("ping") && d[TargetField] == Str(host)
      && d[StatusField] == Str("success") && d[ValueField] == Float(ms) && d[PacketLossField] == Float(0.0)
  {
  }

  /** No delay (no reply within the timeout) is a failure with the -1.0 sentinel and total loss. */
  lemma PingNoReplyRecord(host: string, now: Timestamp)
    ensures var d := PingDocument(host, NoReply, now);
      && d.Keys == {TimestampField, TargetField, MetricTypeField, ValueField, StatusField, PacketLossField}
      && d[MetricTypeField] == Str("ping") && d[TargetField] == Str(host)
      && d[StatusField] == Str("failed") && d[ValueField] == Float(-1.0) && d[PacketLossField] == Float(100.0)
  {
  }

  /** A raised fault is recorded as an error carrying its text, without "packet_loss". */
  lemma PingFaultRecord(host: string, message: string, now: Timestamp)
    ensures var d := PingDocument(host, Fault(message), now);
      && d.Keys == {TimestampField, TargetField, MetricTypeField, ValueField, StatusField, ErrorMessageField}
      && d[MetricTypeField] == Str("ping") && d[TargetField] == Str(host)
      && d[StatusField] == Str("error") && d[ValueField] == Float(-1.0)
      && d[ErrorMessageField] == Str(message) && PacketLossField !in d
  {
  }

  /**
   * The document loses nothing about the outcome: the status tells a real
   * delay of -1.0 ms apart from the sentinel.
   */
  lemma PingRoundTrip(host: string, ping: PingOutcome, now: Timestamp)
    ensures DecodePing(PingDocument(host, ping, now)) == Some(ping)
  {
  }

  /** Hence two outcomes recorded alike are the same outcome. */
  lemma PingDocumentInjective(host: string, p: PingOutcome, q: PingOutcome, now: Timestamp)
    requires PingDocument(host, p, now) == PingDocument(host, q, now)
    ensures p == q
  {
    PingRoundTrip(host, p, now);
    PingRoundTrip(host, q, now);
  }

  // ---------------------------------------------------------------- HTTP

  /** A response is a success exactly when its code is in [200, 400); it is never an "error". */
  lemma HttpStatusClassification(statusCode: int)
    ensures HttpStatus(statusCode) == "success" <==> 200 <= statusCode < 400
    ensures HttpStatus(statusCode) != "success" ==> HttpStatus(statusCode) == "failed"
  {
  }

  /** The boundary cases: 199 and 404 fail, 200, 302 and 399 succeed, 400 fails. */
  lemma HttpStatusExamples()
    ensures HttpStatus(199) == Failed && HttpStatus(200) == Success
    ensures HttpStatus(302) == Success && HttpStatus(399) == Success
    ensures HttpStatus(400) == Failed && HttpStatus(404) == Failed
  {
  }

  /** A response is recorded with its code unchanged, its load time and the classified status. */
  lemma HttpResponseRecord(url: string, code: int, loadTime: real, now: Timestamp)
    ensures var d := HttpDocument(url, Response(code, loadTime), now);
      && d.Keys == {TimestampField, TargetField, MetricTypeField, LoadTimeField, StatusCodeField, StatusField}
      && d[MetricTypeField] == Str("http_response") && d[TargetField] == Str(url)
      && d[StatusCodeField] == Int(code) && d[LoadTimeField] == Float(loadTime)
      && (d[StatusField] == Str("success") <==> 200 <= code < 400)
      && (d[StatusField] == Str("failed") <==> !(200 <= code < 400))
  {
  }

  /** A request exception is a failure (never an error) with both sentinels and the exception text. */
  lemma HttpRequestErrorRecord(url: string, message: string, now: Timestamp)
    ensures var d := HttpDocument(url, RequestError(message), now);
      && d.Keys == {TimestampField, TargetField, MetricTypeField, LoadTimeField, StatusCodeField, StatusField, ErrorMessageField}
      && d[MetricTypeField] == Str("http_response") && d[TargetField] == Str(url)
      && d[StatusField] == Str("failed") && d[LoadTimeField] == Float(-1.0)
      && d[StatusCodeField] == Int(0) && d[ErrorMessageField] == Str(message)
  {
  }

  /** A 404 response is stored as status code 404, failed. */
  lemma HttpNotFoundRecord(url: string, loadTime: real, now: Timestamp)
    ensures var d := HttpDocument(url, Response(404, loadTime), now);
      d[StatusCodeField] == Int(404) && d[StatusField] == Str("failed")
  {
  }

  /**
   * The document loses nothing about the outcome: the presence of
   * "error_message" tells a request exception apart from a response that
   * happens to carry the sentinels.
   */
  lemma HttpRoundTrip(url: string, http: HttpOutcome, now: Timestamp)
    ensures DecodeHttp(HttpDocument(url, http, now)) == Some(http)
  {
  }
}
