# Monitoring agent: probe outcomes and the metrics sink

This project models the core of a small synthetic-monitoring agent. Once a
minute the agent pings two hosts and sends HTTP GETs to three URLs. It turns
each outcome into one measurement document and inserts that document into a
MongoDB collection.

The model covers the logic under the I/O:

- `Records` gives the document shape: a dictionary from field names to values.
  A field is either present or absent. `PingRecord` and `HttpRecord` state the
  two shapes the agent writes.
- `Probes` turns outcomes into documents. `PingDocument` handles the three
  ping branches: a delay, no delay (`None`), or a raised fault. `HttpDocument`
  handles a response (classified by `HttpStatus`) and a request exception.
  `DecodePing` and `DecodeHttp` read a stored document back. The round-trip
  lemmas show that no document loses information about its outcome.
- `Sink` is the collection, a class holding a `seq` of documents that only
  grows. `InsertOne` models `insert_one`.
- `Agent` holds the probe methods `RunPingTest` and `RunHttpTest` and the
  fixed round `ScheduledTests`. The collection is passed to them as a
  parameter, where the source uses a module-level global. `RunPingTest`
  builds the document in place the way the source does (base fields, then an
  update) and is proved equal to `PingDocument`. `History` gives what any
  number of rounds appends, and its lemmas give the layout of the sink.

Probe outcomes and clock readings are inputs. A ping outcome is
`Delay(ms) | NoReply | Fault(message)`. An HTTP outcome is
`Response(code, loadTime) | RequestError(message)`. Each document's
`datetime.now()` reading is a supplied `Timestamp`.

Points a reader may not expect, all taken from the code as written:

- The ping metric type is `"ping"`.
- The HTTP duration field is `load_time`.
- The ping error document has no `packet_loss` field.
- An HTTP request exception stores an `error_message` with status `"failed"`,
  never `"error"`. Only a ping fault gives status `"error"`.
- An HTTP response succeeds on `200 <= code < 400`. The lower bound is part of
  the rule, so 199 fails.
- `error_message` is `str(e)`, which the code does not require to be
  non-empty. The model allows any string.
- The round runs its five probes one after another, in a fixed order.
- The round's fourth target, `"youtube.com"`, has no URL scheme. A request
  library that rejects such a URL raises a request exception, so that probe
  would write the request-error document (status code `0`). The comment beside
  it says the URL is meant to exercise a 404. The model leaves that probe's
  outcome unconstrained, so both cases are covered. This was not observed, only
  read from the code.

## Model

| member | source | states |
|---|---|---|
| `Records.FieldGroupsExclusive` | monitor_agent/agent.py:24-97 | In every measurement document the ping group (`value`) and the HTTP group (`load_time`, `status_code`) never mix, and `metric_type` decides which one is present. Status `"error"` occurs only on ping documents. |
| `Probes.PingDocument` | monitor_agent/agent.py:21-65 | Every ping document satisfies the ping record shape and carries the probed host and the supplied timestamp. |
| `Probes.PingDelayRecord` | monitor_agent/agent.py:24-38 | A returned delay gives exactly the fields timestamp, target, metric_type `"ping"`, value = delay, status `"success"` and packet_loss `0.0`, with no `error_message`. |
| `Probes.PingNoReplyRecord` | monitor_agent/agent.py:40-49 | No delay gives status `"failed"`, value `-1.0` and packet_loss `100.0`, with no `error_message`. |
| `Probes.PingFaultRecord` | monitor_agent/agent.py:55-65 | A raised fault gives status `"error"`, value `-1.0` and `error_message` equal to the fault's text, with no `packet_loss`. The fault becomes a document instead of escaping. |
| `Probes.PingRoundTrip` | monitor_agent/agent.py:24-65 | Reading a ping document back gives the outcome it came from. The status keeps a real delay of -1.0 ms apart from the sentinel. |
| `Probes.PingDocumentInjective` | monitor_agent/agent.py:24-65 | Two ping outcomes stored as the same document are the same outcome. |
| `Probes.HttpDocument` | monitor_agent/agent.py:69-97 | Every HTTP document satisfies the HTTP record shape (status never `"error"`) and carries the URL and the supplied timestamp. |
| `Probes.HttpStatusClassification` | monitor_agent/agent.py:74 | The status is `"success"` exactly when `200 <= status_code < 400`, and `"failed"` otherwise. |
| `Probes.HttpStatusExamples` | monitor_agent/agent.py:74 | 199, 400 and 404 fail. 200, 302 and 399 succeed. |
| `Probes.HttpResponseRecord` | monitor_agent/agent.py:73-85 | A response gives exactly the fields timestamp, target, metric_type `"http_response"`, load_time, status_code and status. The code is stored unchanged and the status follows the classification. |
| `Probes.HttpNotFoundRecord` | monitor_agent/agent.py:78-85 | A 404 response is stored with status_code 404 and status `"failed"`. |
| `Probes.HttpRequestErrorRecord` | monitor_agent/agent.py:86-97 | A request exception gives status `"failed"` (never `"error"`), load_time `-1.0`, status_code `0` and `error_message` equal to the exception text. |
| `Probes.HttpRoundTrip` | monitor_agent/agent.py:78-97 | Reading an HTTP document back gives the outcome it came from. The presence of `error_message` keeps a failed request apart from a response that happens to carry the sentinels. |
| `Sink.MetricsCollection.InsertOne` | monitor_agent/agent.py:53 | Appends the document the agent built, with no driver-assigned `_id`, and leaves the earlier ones unchanged. The collection stays all-well-formed exactly when it was before and the new document is well formed. |
| `Agent.RunPingTest` | monitor_agent/agent.py:17-65 | Appends exactly one document, `PingDocument` of the host, outcome and timestamp, and leaves the earlier documents unchanged. It keeps the collection's well-formedness. |
| `Agent.RunHttpTest` | monitor_agent/agent.py:67-97 | Appends exactly one document, `HttpDocument` of the URL, outcome and timestamp, and leaves the earlier documents unchanged. It keeps the collection's well-formedness. |
| `Agent.RoundDocuments` | monitor_agent/agent.py:100-113 | A round's documents are five well-formed measurements. Their targets are google.com, rnp.br, https://google.com, youtube.com and https://rnp.br, in that order. The first two are ping documents and the last three HTTP documents. |
| `Agent.ScheduledTests` | monitor_agent/agent.py:100-113 | A round appends exactly its five documents, in order, after the existing ones, and keeps the collection's well-formedness. |
| `Agent.History` | monitor_agent/agent.py:120 | Any number of rounds appends five documents per round. |
| `Agent.HistoryExtend` | monitor_agent/agent.py:120 | One more round extends the history by exactly that round's documents. |
| `Agent.HistoryLayout` | monitor_agent/agent.py:100-120 | Document i of round j is at position 5j + i of the history. The rounds' documents keep their order and never interleave. |
| `Agent.HistoryTargets` | monitor_agent/agent.py:100-120 | Over any number of rounds every stored document is well formed. Position i of every round holds target i of the fixed order. |

## Left out

- The MongoDB connection and its configuration from the environment (agent.py lines 11-14) are external I/O. An in-memory sequence replaces them.
- The `ping3.ping` and `requests.get` network calls and their timeouts (1 s and 5 s) are foreign libraries. Their outcomes are inputs.
- Any value `ping3.ping` might return that is neither a number nor `None` is not modelled. The code would treat such a value, being not `None`, as a success.
- The load-time arithmetic from `time.time()` is floating-point wall-clock numerics. `load_time` and the ping delay are opaque reals. Python floats are modelled as Dafny reals.
- The `datetime.now()` readings are nondeterministic clock reads, so they are supplied values.
- `print` logging and its formatting are output side effects only.
- The `BackgroundScheduler`, its one-minute interval, the `while True: sleep` keep-alive loop and the signal-driven `shutdown` are threading, timers and process lifecycle. `History` describes only what successive rounds append.
- Insert failures raised by `insert_one` are not modelled. For a ping, this failure is caught by the same `except` and leads to a second, error-document insert. For HTTP, the failure is not a `RequestException`, so it escapes and aborts the rest of the round.
- The `_id` field that the MongoDB driver's `insert_one` adds is not modelled, and neither is its in-place change to the caller's dictionary. The stored documents are the ones the agent builds, so `PingRecord` and `HttpRecord` describe documents without `_id`.
