/**
 * The Prometheus side of the exporter: the four metric descriptors, the
 * collector's `Describe`, and `Collect`, which fetches the gateway status and
 * turns every record into gauge samples.
 *
 * A channel the collector writes to is modelled as the sequence of values
 * sent on it, in order.
 */
module Prometheus {
  import opened Wrappers
  import opened Gateway

  /** A metric descriptor: its fully-qualified name, help text and the names
      of its variable labels (none of the descriptors has constant labels). */
  datatype Desc = Desc(fqName: string, help: string, variableLabels: seq<string>)

  datatype ValueType = CounterValue | GaugeValue | UntypedValue

  /** A constant metric: a sample of `desc` with one value per variable label. */
  datatype Metric = Metric(desc: Desc, valueType: ValueType, value: real, labelValues: seq<string>)

  const GatewayStatusDesc: Desc :=
    Desc("opnsense_gateway_status", "OPNsense gateway status", ["gateway", "address", "status_translated"])
  const LossDesc: Desc :=
    Desc("opnsense_gateway_loss_pct", "OPNsense gateway packet loss percentage", ["gateway", "address"])
  const StddevDesc: Desc :=
    Desc("opnsense_gateway_stddev_ms", "OPNsense gateway standard deviation in milliseconds", ["gateway", "stddev"])
  const DelayDesc: Desc :=
    Desc("opnsense_gateway_delay_ms", "OPNsense gateway delay in milliseconds", ["gateway", "address"])

  /** A metric carries exactly as many label values as its descriptor has labels. */
  predicate WellFormed(m: Metric) {
    |m.labelValues| == |m.desc.variableLabels|
  }

  /** `prometheus.MustNewConstMetric`: it panics unless there is one label
      value per variable label, so that is what it requires of its caller. */
  function MustNewConstMetric(desc: Desc, valueType: ValueType, value: real, labelValues: seq<string>): (m: Metric)
    requires |labelValues| == |desc.variableLabels|
    ensures WellFormed(m)
  {
    Metric(desc, valueType, value, labelValues)
  }

  /** The descriptors `Describe` sends, in order: status, loss and delay; the
      stddev descriptor is never described. */
  function Describe(): (descs: seq<Desc>)
    ensures |descs| == 3
    ensures descs[0].fqName == "opnsense_gateway_status"
    ensures descs[1].fqName == "opnsense_gateway_loss_pct"
    ensures descs[2].fqName == "opnsense_gateway_delay_ms"
    ensures StddevDesc !in descs
  {
    [GatewayStatusDesc, LossDesc, DelayDesc]
  }

  /** The loss and delay texts of `g` parse again, as `Collect` parses them. */
  predicate Reparses(g: GatewayStatus, parse: Parser) {
    parse(FieldText(g, Loss)).Some? && parse(FieldText(g, Delay)).Some?
  }

  /** The samples `Collect` sends for one record. */
  function ItemSamples(g: GatewayStatus, parse: Parser): seq<Metric> {
    var status := MustNewConstMetric(GatewayStatusDesc, GaugeValue, StatusValue(g.statusTranslated),
                                     [g.name, g.address, g.statusTranslated]);
    var loss := parse(FieldText(g, Loss));
    var delay := parse(FieldText(g, Delay));
    if loss.None? || delay.None? then [status]
    else [status,
          MustNewConstMetric(LossDesc, GaugeValue, loss.value, [g.name, g.address]),
          MustNewConstMetric(DelayDesc, GaugeValue, delay.value, [g.name, g.address]),
          MustNewConstMetric(StddevDesc, GaugeValue, delay.value, [g.name, g.address])]
  }

  /** One record's samples: its status first, whatever follows; then loss,
      delay and stddev exactly when both loss and delay parse, the stddev
      sample carrying the delay value. */
  lemma ItemSamplesShape(g: GatewayStatus, parse: Parser)
    ensures var samples := ItemSamples(g, parse);
      && |samples| == (if Reparses(g, parse) then 4 else 1)
      && samples[0].desc == GatewayStatusDesc
      && (samples[0].value == 1.0 <==> g.statusTranslated == Online)
      && (samples[0].value == 0.0 <==> g.statusTranslated != Online)
      && samples[0].labelValues == [g.name, g.address, g.statusTranslated]
      && (|samples| == 4 ==>
            && samples[1].desc == LossDesc && samples[2].desc == DelayDesc && samples[3].desc == StddevDesc
            && Some(samples[1].value) == parse(FieldText(g, Loss))
            && Some(samples[2].value) == parse(FieldText(g, Delay))
            && samples[3].value == samples[2].value)
  {
  }

  /** The chunks of a channel's output, one after the other. */
  function Flatten(chunks: seq<seq<Metric>>): seq<Metric>
    decreases |chunks|
  {
    if chunks == [] then [] else Flatten(chunks[..|chunks| - 1]) + chunks[|chunks| - 1]
  }

  /** Each record's samples, in record order. */
  function PerRecord(items: seq<GatewayStatus>, parse: Parser): seq<seq<Metric>> {
    seq(|items|, j requires 0 <= j < |items| => ItemSamples(items[j], parse))
  }

  /** The samples for a sequence of records, record by record in order. */
  function SamplesOf(items: seq<GatewayStatus>, parse: Parser): seq<Metric> {
    Flatten(PerRecord(items, parse))
  }

  /** Everything one `Collect` sends: nothing when the fetch fails. */
  function CollectedSamples(exchange: Exchange, parse: Parser): seq<Metric> {
    match GatewayStatusResult(exchange, parse)
    case Failure(_) => []
    case Success(response) => SamplesOf(response.items, parse)
  }

  /**
   * `Collect`: fetch the gateway status; on an error send nothing, and
   * otherwise send the samples of every record in turn.
   */
  method Collect(exchange: Exchange, parse: Parser) returns (sent: seq<Metric>)
    ensures sent == CollectedSamples(exchange, parse)
    ensures GatewayStatusResult(exchange, parse).Failure? ==> sent == []
  {
    var gatewayStatus := GetGatewayStatus(exchange, parse);
    if gatewayStatus.Failure? {
      return [];
    }
    sent := SendGatewaySamples(gatewayStatus.value.items, parse);
  }

  /**
   * The loop of `Collect` over the fetched records: send a record's status
   * sample, parse its loss and delay again and move on to the next record
   * when either fails, and else send its loss, delay and stddev samples.
   * Every `MustNewConstMetric` call is shown not to panic.
   */
  method SendGatewaySamples(items: seq<GatewayStatus>, parse: Parser) returns (sent: seq<Metric>)
    ensures sent == SamplesOf(items, parse)
  {
    sent := [];
    ghost var chunks := PerRecord(items, parse);
    for k := 0 to |items|
      invariant sent == Flatten(chunks[..k])
    {
      ghost var before := sent;
      ghost var expected := ItemSamples(items[k], parse);
      assert chunks[..k + 1][..k] == chunks[..k];
      assert Flatten(chunks[..k + 1]) == before + expected;
      var gateway := items[k];
      var status := 0.0;
      if gateway.statusTranslated == Online {
        status := 1.0;
      }
      var labels := [gateway.name, gateway.address, gateway.statusTranslated];
      var statusSample := MustNewConstMetric(GatewayStatusDesc, GaugeValue, status, labels);
      sent := sent + [statusSample];

      var lossStr := TrimSuffix(gateway.loss, LossSuffix);
      assert lossStr == FieldText(items[k], Loss);
      var loss := parse(lossStr);
      if loss.None? {
        assert expected == [statusSample];
        continue;
      }
      gateway := gateway.(lossValue := loss.value);

      var delayStr := TrimSuffix(gateway.delay, MillisecondSuffix);
      assert delayStr == FieldText(items[k], Delay);
      var delay := parse(delayStr);
      if delay.None? {
        assert expected == [statusSample];
        continue;
      }
      gateway := gateway.(delayValue := delay.value);

      var lossSample := MustNewConstMetric(LossDesc, GaugeValue, gateway.lossValue, [gateway.name, gateway.address]);
      sent := sent + [lossSample];
      var delaySample := MustNewConstMetric(DelayDesc, GaugeValue, gateway.delayValue, [gateway.name, gateway.address]);
      sent := sent + [delaySample];
      var stddevSample := MustNewConstMetric(StddevDesc, GaugeValue, gateway.delayValue, [gateway.name, gateway.address]);
      sent := sent + [stddevSample];
      assert expected == [statusSample, lossSample, delaySample, stddevSample];
      assert sent == before + expected;
    }
    assert chunks[..|items|] == chunks;
  }

  /** Every sample of a flattened output comes from one of its chunks. */
  lemma {:induction false} FlattenMember(chunks: seq<seq<Metric>>, m: Metric)
    requires m in Flatten(chunks)
    ensures exists j :: 0 <= j < |chunks| && m in chunks[j]
    decreases |chunks|
  {
    var n := |chunks| - 1;
    if m in Flatten(chunks[..n]) {
      FlattenMember(chunks[..n], m);
      var j :| 0 <= j < n && m in chunks[..n][j];
      assert chunks[j] == chunks[..n][j];
    } else {
      assert m in chunks[n];
    }
  }

  /** Chunks of four samples each flatten to four samples per chunk. */
  lemma {:induction false} FlattenUniformLength(chunks: seq<seq<Metric>>)
    requires forall j :: 0 <= j < |chunks| ==> |chunks[j]| == 4
    ensures |Flatten(chunks)| == 4 * |chunks|
    decreases |chunks|
  {
    if chunks != [] {
      var front := chunks[..|chunks| - 1];
      assert forall j :: 0 <= j < |front| ==> front[j] == chunks[j];
      FlattenUniformLength(front);
    }
  }

  /** Chunks of four samples each: chunk `k` sits at positions 4k to 4k+3. */
  lemma {:induction false} FlattenUniformAt(chunks: seq<seq<Metric>>, k: nat)
    requires forall j :: 0 <= j < |chunks| ==> |chunks[j]| == 4
    requires k < |chunks|
    ensures |Flatten(chunks)| == 4 * |chunks|
    ensures Flatten(chunks)[4 * k..4 * k + 4] == chunks[k]
    decreases |chunks|
  {
    var n := |chunks| - 1;
    var front := chunks[..n];
    assert forall j :: 0 <= j < |front| ==> front[j] == chunks[j];
    FlattenUniformLength(front);
    var head := Flatten(front);
    var last := chunks[n];
    assert Flatten(chunks) == head + last;
    assert |head| == 4 * n && |last| == 4;
    if k < n {
      FlattenUniformAt(front, k);
      assert (head + last)[4 * k..4 * k + 4] == head[4 * k..4 * k + 4];
    } else {
      assert (head + last)[|head|..] == last;
    }
  }

  /** Every sample sent for a list of records is a gauge with one label value
      per descriptor label. */
  lemma SamplesWellFormed(items: seq<GatewayStatus>, parse: Parser)
    ensures forall m :: m in SamplesOf(items, parse) ==> WellFormed(m) && m.valueType == GaugeValue
  {
    forall m | m in SamplesOf(items, parse)
      ensures WellFormed(m) && m.valueType == GaugeValue
    {
      FlattenMember(PerRecord(items, parse), m);
    }
  }

  /** When every record parses again, record `k`'s four samples are those at
      positions 4k to 4k+3, and there are four per record. */
  lemma SamplesOfRecord(items: seq<GatewayStatus>, parse: Parser, k: nat)
    requires forall j :: 0 <= j < |items| ==> Reparses(items[j], parse)
    requires k < |items|
    ensures |SamplesOf(items, parse)| == 4 * |items|
    ensures SamplesOf(items, parse)[4 * k..4 * k + 4] == ItemSamples(items[k], parse)
  {
    var chunks := PerRecord(items, parse);
    forall j | 0 <= j < |items|
      ensures |chunks[j]| == 4
    {
      ItemSamplesShape(items[j], parse);
    }
    FlattenUniformAt(chunks, k);
  }

  /** Every sample `Collect` sends is a gauge that `MustNewConstMetric` accepts. */
  lemma CollectedSamplesWellFormed(exchange: Exchange, parse: Parser)
    ensures forall m :: m in CollectedSamples(exchange, parse) ==> WellFormed(m) && m.valueType == GaugeValue
  {
    if GatewayStatusResult(exchange, parse).Success? {
      SamplesWellFormed(GatewayStatusResult(exchange, parse).value.items, parse);
    }
  }

  /** Every record of a successful fetch parses again in `Collect`. */
  lemma NormalizedItemsReparse(exchange: Exchange, parse: Parser)
    requires GatewayStatusResult(exchange, parse).Success?
    ensures var items := GatewayStatusResult(exchange, parse).value.items;
      forall j :: 0 <= j < |items| ==> Reparses(items[j], parse)
  {
    ResponseOnSuccess(exchange, parse);
    var items := GatewayStatusResult(exchange, parse).value.items;
    var decoded := exchange.body.value.items;
    forall j | 0 <= j < |items|
      ensures Reparses(items[j], parse)
    {
      assert SameDecodedFields(items[j], decoded[j]);
      assert FieldText(items[j], Loss) == FieldText(decoded[j], Loss);
      assert FieldText(items[j], Delay) == FieldText(decoded[j], Delay);
    }
  }

  /** A successful fetch of N records yields exactly 4·N samples. */
  lemma CollectFourPerRecord(exchange: Exchange, parse: Parser)
    requires GatewayStatusResult(exchange, parse).Success?
    ensures exchange.Replied? && exchange.body.Success?
    ensures |CollectedSamples(exchange, parse)| == 4 * |exchange.body.value.items|
  {
    ResponseOnSuccess(exchange, parse);
    NormalizedItemsReparse(exchange, parse);
    var items := GatewayStatusResult(exchange, parse).value.items;
    if items != [] {
      SamplesOfRecord(items, parse, 0);
    }
  }

  /** After a successful fetch, record `k`'s samples are, in order, its status
      value (labels name, address, status), its loss value and its delay value
      (labels name, address), and a stddev sample that carries the delay value,
      not the standard deviation. */
  lemma CollectSamplesOfRecord(exchange: Exchange, parse: Parser, k: nat)
    requires GatewayStatusResult(exchange, parse).Success?
    requires k < |GatewayStatusResult(exchange, parse).value.items|
    ensures var n := GatewayStatusResult(exchange, parse).value.items[k];
            var samples := CollectedSamples(exchange, parse);
      && 4 * k + 3 < |samples|
      && samples[4 * k] == Metric(GatewayStatusDesc, GaugeValue, n.statusValue, [n.name, n.address, n.statusTranslated])
      && samples[4 * k + 1] == Metric(LossDesc, GaugeValue, n.lossValue, [n.name, n.address])
      && samples[4 * k + 2] == Metric(DelayDesc, GaugeValue, n.delayValue, [n.name, n.address])
      && samples[4 * k + 3] == Metric(StddevDesc, GaugeValue, n.delayValue, [n.name, n.address])
  {
    ResponseOnSuccess(exchange, parse);
    NormalizedItemsReparse(exchange, parse);
    var items := GatewayStatusResult(exchange, parse).value.items;
    SamplesOfRecord(items, parse, k);
    var decoded := exchange.body.value.items;
    assert SameDecodedFields(items[k], decoded[k]);
    assert FieldText(items[k], Loss) == FieldText(decoded[k], Loss);
    assert FieldText(items[k], Delay) == FieldText(decoded[k], Delay);
    var all := CollectedSamples(exchange, parse);
    var s := ItemSamples(items[k], parse);
    assert all[4 * k..4 * k + 4] == s;
    assert all[4 * k] == s[0] && all[4 * k + 1] == s[1] && all[4 * k + 2] == s[2] && all[4 * k + 3] == s[3];
  }

  /** A scrape that finds at least one gateway sends a sample whose
      descriptor `Describe` never announced. */
  lemma StddevSampleIsUndescribed(exchange: Exchange, parse: Parser)
    requires GatewayStatusResult(exchange, parse).Success?
    requires |GatewayStatusResult(exchange, parse).value.items| > 0
    ensures exists m :: m in CollectedSamples(exchange, parse) && m.desc !in Describe()
  {
    CollectSamplesOfRecord(exchange, parse, 0);
    assert CollectedSamples(exchange, parse)[3].desc == StddevDesc;
  }

  /** One online WAN gateway with loss `0.0 %`, delay `14.2 ms` and stddev
      `1.1 ms`: the stddev sample carries the 14.2 ms delay, not the 1.1 ms
      standard deviation. */
  lemma WanGatewayScenario(parse: Parser)
    requires parse("0.0") == Some(0.0) && parse("14.2") == Some(14.2) && parse("1.1") == Some(1.1)
    ensures var record := GatewayStatus("WAN_GW", "203.0.113.1", "0.0 %", 0.0, "14.2 ms", 0.0, "1.1 ms", 0.0, "Online", 0.0);
            var labels := ["WAN_GW", "203.0.113.1"];
      CollectedSamples(Replied(StatusOK, Success(GatewayStatusResponse([record], "ok"))), parse) ==
        [Metric(GatewayStatusDesc, GaugeValue, 1.0, labels + ["Online"]),
         Metric(LossDesc, GaugeValue, 0.0, labels),
         Metric(DelayDesc, GaugeValue, 14.2, labels),
         Metric(StddevDesc, GaugeValue, 14.2, labels)]
  {
    var record := GatewayStatus("WAN_GW", "203.0.113.1", "0.0 %", 0.0, "14.2 ms", 0.0, "1.1 ms", 0.0, "Online", 0.0);
    var exchange := Replied(StatusOK, Success(GatewayStatusResponse([record], "ok")));
    TrimSuffixOfAppended("0.0", LossSuffix);
    TrimSuffixOfAppended("14.2", MillisecondSuffix);
    TrimSuffixOfAppended("1.1", MillisecondSuffix);
    assert "0.0" + LossSuffix == record.loss;
    assert "14.2" + MillisecondSuffix == record.delay;
    assert "1.1" + MillisecondSuffix == record.standardDev;
    assert ItemParses(record, parse);
    AllOrNothing(GatewayStatusResponse([record], "ok"), parse);
    ResponseOnSuccess(exchange, parse);
    CollectFourPerRecord(exchange, parse);
    CollectSamplesOfRecord(exchange, parse, 0);
    var n := GatewayStatusResult(exchange, parse).value.items[0];
    assert n.statusValue == 1.0 && n.lossValue == 0.0 && n.delayValue == 14.2;
    assert SameDecodedFields(n, record);
    var all := CollectedSamples(exchange, parse);
    assert |all| == 4;
    assert all == [all[0], all[1], all[2], all[3]];
    var labels := ["WAN_GW", "203.0.113.1"];
    assert labels + ["Online"] == [n.name, n.address, n.statusTranslated];
    assert all[0] == Metric(GatewayStatusDesc, GaugeValue, 1.0, labels + ["Online"]);
    assert all[3] == Metric(StddevDesc, GaugeValue, 14.2, labels);
  }
}
