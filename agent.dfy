/**
 * The monitoring agent: the two probes, run against the shared metrics
 * collection, and the fixed round the scheduler fires every minute.
 *
 * Every probe call appends exactly one document and changes nothing else.
 */
module Agent {

  import opened Records
  import opened Probes
  import opened Sink

  /**
   * Pings `host`, given what the ping produced and the clock reading taken
   * when the document is built, and inserts the document. A fault of the ping
   * never escapes: it becomes the error document.
   */
  method RunPingTest(metrics: MetricsCollection, host: string, ping: PingOutcome, now: Timestamp)
    modifies metrics
    ensures metrics.documents == old(metrics.documents) + [PingDocument(host, ping, now)]
    ensures metrics.Valid() <==> old(metrics.Valid())
  {
    if ping.Fault? {
      metrics.InsertOne(map[
        TimestampField := DateTime(now), TargetField := Str(host), MetricTypeField := Str(PingMetric),
        ValueField := Float(Unmeasured), StatusField := Str(Error), ErrorMessageField := Str(ping.message)]);
      return;
    }
    var metricDoc := map[TimestampField := DateTime(now), TargetField := Str(host), MetricTypeField := Str(PingMetric)];
    if ping.Delay? {
      var loss, status := NoLoss, Success;
      metricDoc := metricDoc + map[ValueField := Float(ping.ms), StatusField := Str(status), PacketLossField := Float(loss)];
    } else {
      var delay, loss, status := Unmeasured, TotalLoss, Failed;
      metricDoc := metricDoc + map[ValueField := Float(delay), StatusField := Str(status), PacketLossField := Float(loss)];
    }
    assert metricDoc == PingDocument(host, ping, now);
    metrics.InsertOne(metricDoc);
  }

  /**
   * Requests `url`, given what the request produced and the clock reading
   * taken when the document is built, and inserts the document. A request
   * exception becomes a failed document.
   */
  method RunHttpTest(metrics: MetricsCollection, url: string, http: HttpOutcome, now: Timestamp)
    modifies metrics
    ensures metrics.documents == old(metrics.documents) + [HttpDocument(url, http, now)]
    ensures metrics.Valid() <==> old(metrics.Valid())
  {
    match http
    case Response(statusCode, loadTime) =>
      var status := HttpStatus(statusCode);
      metrics.InsertOne(map[
        TimestampField := DateTime(now), TargetField := Str(url), MetricTypeField := Str(HttpMetric),
        LoadTimeField := Float(loadTime), StatusCodeField := Int(statusCode), StatusField := Str(status)]);
    case RequestError(message) =>
      metrics.InsertOne(map[
        TimestampField := DateTime(now), TargetField := Str(url), MetricTypeField := Str(HttpMetric),
        LoadTimeField := Float(Unmeasured), StatusCodeField := Int(NoStatusCode), StatusField := Str(Failed),
        ErrorMessageField := Str(message)]);
  }

  /** An outcome paired with the clock reading stored with it. */
  datatype Observed<T> = Observed(outcome: T, at: Timestamp)

  /** What the environment supplies for one round, one entry per probe. */
  datatype RoundInput = RoundInput(
    googlePing: Observed<PingOutcome>,
    rnpPing: Observed<PingOutcome>,
    googleHttp: Observed<HttpOutcome>,
    youtubeHttp: Observed<HttpOutcome>,
    rnpHttp: Observed<HttpOutcome>)

  /** The targets of one round, in the order it probes them. */
  const RoundTargets: seq<string> := ["google.com", "rnp.br", "https://google.com", "youtube.com", "https://rnp.br"]

  /** The number of pings in a round; they come first, the HTTP checks after. */
  const PingCount := 2

  const RoundSize := 5

  /** The documents one round appends, in order. */
  function RoundDocuments(round: RoundInput): (r: seq<Document>)
    ensures |r| == RoundSize == |RoundTargets|
    ensures forall k :: 0 <= k < |r| ==> MeasurementRecord(r[k]) && r[k][TargetField] == Str(RoundTargets[k])
    ensures forall k :: 0 <= k < |r| ==> (PingRecord(r[k]) <==> k < PingCount)
  {
    [ PingDocument("google.com", round.googlePing.outcome, round.googlePing.at),
      PingDocument("rnp.br", round.rnpPing.outcome, round.rnpPing.at),
      HttpDocument("https://google.com", round.googleHttp.outcome, round.googleHttp.at),
      HttpDocument("youtube.com", round.youtubeHttp.outcome, round.youtubeHttp.at),
      HttpDocument("https://rnp.br", round.rnpHttp.outcome, round.rnpHttp.at) ]
  }

  /** One round: two pings, then three HTTP checks, each appending its document. */
  method ScheduledTests(metrics: MetricsCollection, round: RoundInput)
    modifies metrics
    ensures metrics.documents == old(metrics.documents) + RoundDocuments(round)
    ensures metrics.Valid() <==> old(metrics.Valid())
  {
    RunPingTest(metrics, "google.com", round.googlePing.outcome, round.googlePing.at);
    RunPingTest(metrics, "rnp.br", round.rnpPing.outcome, round.rnpPing.at);
    RunHttpTest(metrics, "https://google.com", round.googleHttp.outcome, round.googleHttp.at);
    RunHttpTest(metrics, "youtube.com", round.youtubeHttp.outcome, round.youtubeHttp.at);
    RunHttpTest(metrics, "https://rnp.br", round.rnpHttp.outcome, round.rnpHttp.at);
  }

  /** The documents appended by a sequence of rounds, oldest first. */
  function History(rounds: seq<RoundInput>): (h: seq<Document>)
    ensures |h| == RoundSize * |rounds|
  {
    if rounds == [] then [] else History(rounds[..|rounds| - 1]) + RoundDocuments(rounds[|rounds| - 1])
  }

  /** One more round extends the history by exactly that round's documents. */
  lemma HistoryExtend(rounds: seq<RoundInput>, round: RoundInput)
    ensures History(rounds + [round]) == History(rounds) + RoundDocuments(round)
  {
    assert (rounds + [round])[..|rounds|] == rounds;
  }

  /** Document i of round j sits at position 5 * j + i of the history: rounds never interleave. */
  lemma {:induction false} HistoryLayout(rounds: seq<RoundInput>, j: nat, i: nat)
    requires j < |rounds| && i < RoundSize
    ensures RoundSize * j + i < |History(rounds)|
    ensures History(rounds)[RoundSize * j + i] == RoundDocuments(rounds[j])[i]
  {
    var n := |rounds|;
    var earlier := rounds[..n - 1];
    var before := History(earlier);
    assert History(rounds) == before + RoundDocuments(rounds[n - 1]);
    if j < n - 1 {
      HistoryLayout(earlier, j, i);
      assert rounds[j] == earlier[j];
      assert RoundSize * j + i < |before|;
    } else {
      assert RoundSize * j + i == |before| + i;
    }
  }

  /**
   * Over any number of rounds every stored document is well formed, and
   * position i of every round holds target i of the fixed order.
   */
  lemma HistoryTargets(rounds: seq<RoundInput>, j: nat, i: nat)
    requires j < |rounds| && i < RoundSize
    ensures MeasurementRecord(History(rounds)[RoundSize * j + i])
    ensures History(rounds)[RoundSize * j + i][TargetField] == Str(RoundTargets[i])
  {
    HistoryLayout(rounds, j, i);
  }
}
