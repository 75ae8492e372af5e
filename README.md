# OPNsense gateway exporter: a Dafny model of its translation pipeline

The exporter polls an OPNsense appliance's gateway-status API and republishes
each gateway as Prometheus gauges. This project models the two parts of the
exporter that hold logic.

- **Gateway** (`gateway.dfy`, after `gateway.go`) covers the records the
  appliance returns (`GatewayStatus`, `GatewayStatusResponse`) and
  `getGatewayStatus` from the point where the reply is in:
  - a non-200 status code is an error;
  - a body that is not JSON is an error;
  - otherwise a loop runs over the decoded records in place. For each record
    it trims `" %"` from the loss and `" ms"` from the delay and standard
    deviation, as `strings.TrimSuffix` does. It parses each text and writes
    each value (`LossValue`, `DelayValue`, `StandardDevValue`) into the record
    as soon as its text parses, then writes `StatusValue`. It stops the whole
    batch at the first text that does not parse.
  - `GetGatewayStatus` is that loop over a fresh array holding the decoded
    records, rewritten element by element. The recursive function
    `NormalizeAll` (through `GatewayStatusResult`) is its specification. The
    lemmas beside it state the properties: all-or-nothing, first failure
    reported, each value parsed from its own field, nothing else changed.
- **Prometheus** (`prometheus.dfy`, after `prometheus.go`) covers:
  - the four metric descriptors and their label names;
  - `Describe`, which sends status, loss and delay but not stddev;
  - `Collect`. After a failed fetch it sends nothing. Otherwise it sends,
    for each record, a status sample. It then parses loss and delay again;
    if either fails it goes on to the next record, and if both succeed it
    sends loss, delay and stddev samples. The stddev sample carries the
    **delay** value, with the address under a label named `stddev`. This is
    kept as written and proved as `CollectSamplesOfRecord`.
  - The channel `Collect` writes to is the sequence `sent` that it returns.
    The loop over the records is the method `SendGatewaySamples`, which
    `Collect` calls once the fetch has succeeded.
  - `MustNewConstMetric` panics when the number of label values differs from
    the number of labels. Here that is its `requires`, so verifying `SendGatewaySamples`
    shows that no call panics.
- **Wrappers** (`wrappers.dfy`) holds `Option` and `Result`.

`strconv.ParseFloat` is the parameter `parse: string -> Option<real>`: an
uninterpreted, deterministic partial function, where `None` is a parse error.
`Collect` gets the same function that `getGatewayStatus` uses. So the second
parse in `Collect` provably succeeds for every record of a successful fetch,
and a fetch of N records yields exactly 4·N samples.

A loss, delay or standard deviation without its unit suffix is not an error
in itself. `strings.TrimSuffix` (gateway.go:69, 75, 81) passes such a string
to the parser unchanged, so `"0.5"` is accepted like `"0.5 %"`
(`MissingSuffixIsNotAnError`).

## Model

| member | source | states |
|---|---|---|
| `Gateway.TrimSuffix` | gateway.go:69-81 | With the suffix, the result plus the suffix is the input, `|suffix|` characters shorter (two for `" %"`, three for `" ms"`); without it, the input comes back unchanged. |
| `Gateway.TrimSuffixOfAppended` | gateway.go:69 | Trimming a suffix from `t + suffix` gives back `t`, so only one copy of the suffix is removed. |
| `Gateway.StatusValue` | gateway.go:87-92 | The status value is 1.0 exactly when the translated status equals "Online" (case-sensitive), and 0.0 otherwise. |
| `Gateway.ItemFailure` | gateway.go:68-85 | A record fails to normalise exactly when its trimmed loss, delay or stddev text does not parse. |
| `Gateway.ItemFailureReportsFirst` | gateway.go:68-85 | A failing record's error names a field whose trimmed text fails, with that text. Every field checked before it (loss, then delay, then stddev) parses. |
| `Gateway.NormalizeAllSucceedsIff` | gateway.go:68-93 | A batch normalises if and only if every record's loss, delay and stddev parse. |
| `Gateway.NormalizeAllPointwise` | gateway.go:68-93 | A normalised batch has the input's length and order. Record j of the result is record j of the input with its four numeric fields written. |
| `Gateway.NormalizeAllOfNormalized` | gateway.go:68-95 | Conversely, a sequence holding every record normalised, in order, is the batch's result. |
| `Gateway.NormalizeAllFailsAt` | gateway.go:68-85 | If record k is the first that fails, the batch fails with record k's own error. |
| `Gateway.NormalizeAllFirstFailure` | gateway.go:68-85 | A failing batch's error is that of a record that is preceded only by records that parse. |
| `Gateway.GetGatewayStatus` | gateway.go:57-95 | The in-place loop returns exactly `GatewayStatusResult`. A non-200 status code yields `NonOkStatus` with that code. |
| `Gateway.NonOkStatusIgnoresBody` | gateway.go:57-59 | A non-200 status code gives the same `NonOkStatus` error for any body, well-formed or not. |
| `Gateway.AllOrNothing` | gateway.go:61-95 | A 200 reply with a decoded body succeeds exactly when every record parses. Otherwise the error is that of the earliest failing record. |
| `Gateway.ResponseOnSuccess` | gateway.go:61-95 | On success the top-level status, the record count and order, and every decoded field are unchanged. Loss, delay and stddev values are the parses of the trimmed texts. The status value is 1.0 exactly for "Online" and 0.0 otherwise. |
| `Gateway.MissingSuffixIsNotAnError` | gateway.go:68-85 | In a batch whose records all parse, the batch succeeds, and a loss, delay or stddev of any record that lacks its suffix is parsed as it stands and its value written; a missing suffix alone is no error. |
| `Prometheus.MustNewConstMetric` | prometheus.go:83-88 | It accepts only one label value per descriptor label, and the metric it builds has that shape. |
| `Prometheus.Describe` | prometheus.go:40-44 | It sends exactly three descriptors, status, loss and delay in that order, and never the stddev one. |
| `Prometheus.ItemSamplesShape` | prometheus.go:53-102 | One record gives its status sample first: status descriptor, 1.0 iff "Online", labels name, address and status. It gives 4 samples when loss and delay parse again and 1 otherwise. The 4 are loss, delay and stddev after the status; the loss and delay samples carry the parsed values, and the stddev sample carries the delay value. |
| `Prometheus.Collect` | prometheus.go:46-104 | The samples sent are exactly `CollectedSamples`. Nothing is sent when the fetch fails. |
| `Prometheus.SendGatewaySamples` | prometheus.go:53-103 | The loop sends exactly the records' samples in record order, with the per-record `continue` on a parse failure. No `MustNewConstMetric` call can panic. |
| `Prometheus.SamplesWellFormed` | prometheus.go:59-102 | Every sample built from a list of records is a gauge whose label-value count equals its descriptor's label count. |
| `Prometheus.SamplesOfRecord` | prometheus.go:53-103 | If every record parses again, there are four samples per record, and those at positions 4k to 4k+3 are record k's. |
| `Prometheus.CollectedSamplesWellFormed` | prometheus.go:13-38 | Every sample `Collect` sends matches its descriptor's declared arity: 3 for status, 2 for the others. |
| `Prometheus.NormalizedItemsReparse` | prometheus.go:67-81 | After a successful fetch, the loss and delay of every record parse again, so no `continue` is taken. |
| `Prometheus.CollectFourPerRecord` | prometheus.go:53-103 | A successful fetch of N decoded records sends exactly 4·N samples. |
| `Prometheus.CollectSamplesOfRecord` | prometheus.go:54-102 | After a successful fetch, record k's samples come in this order: status (`StatusValue`, labels name, address and status), loss (`LossValue`), delay (`DelayValue`), and stddev. The stddev sample carries `DelayValue`. The last three have labels name and address. |
| `Prometheus.StddevSampleIsUndescribed` | prometheus.go:26-44 | A scrape that finds a gateway sends a sample whose descriptor `Describe` never sends. |
| `Prometheus.WanGatewayScenario` | prometheus.go:46-104 | One online WAN gateway with loss "0.0 %", delay "14.2 ms" and stddev "1.1 ms" gives four samples: 1.0, 0.0, 14.2 and 14.2. |

## Left out

- The HTTP request, Basic authentication, sending and reading the body (gateway.go:37-55) are network I/O. Their outcome is the input `Exchange`, where a failure at one of the three steps becomes `TransportError`.
- `json.Unmarshal` (gateway.go:61-65) is a foreign library. The decoded `GatewayStatusResponse`, or the decoding error's text, is part of the input.
- `strconv.ParseFloat` is floating-point parsing. It is the uninterpreted parameter `parse`, with numbers as `real`. The exact float64 values and the distinction between syntax and range errors are not modelled. `ParseFloat` also accepts `"NaN"`, `"Inf"` and `"±Infinity"`, which have no `real` counterpart: for them `parse` gives some arbitrary real, and no contract depends on which.
- Error messages are modelled by their data (field and text, status code, reason), not by their formatted strings.
- `GetGatewayStatus` returns the normalised records as a value, not as a pointer to a shared struct. The struct is freshly decoded on every call, so there is no aliasing to observe.
- When a record fails, the numeric fields already written to that record and to earlier records are not described. The source discards the whole response in that case.
- The Prometheus registry, the `promhttp` handler and `ListenAndServe` (prometheus.go:106-118) are library and server plumbing.
- The channels of `Describe` and `Collect` are modelled by the ordered sequence of values sent, with no concurrency or blocking.
- Label-value UTF-8 validation in `MustNewConstMetric` is left out, because strings here are sequences of characters. Help texts are kept but not interpreted.
- `log.Println` diagnostics are left out.
- main.go is not part of this model. It reads environment variables, fetches, and prints the body and the fields to stdout, with no transformation logic.
