/**
 * The gateway-status fetch of the exporter: the records the appliance returns,
 * the checks `getGatewayStatus` makes on the reply, and the loop that turns the
 * textual loss, delay and standard-deviation fields into numbers.
 *
 * The HTTP exchange and the JSON decoding are not modelled; their outcome is
 * the input `Exchange`. `strconv.ParseFloat` is the parameter `parse`, an
 * uninterpreted partial function (`None` is a parse error).
 */
module Gateway {
  import opened Wrappers

  /** One gateway record: the raw strings of the JSON payload and the four
      numeric fields that a successful normalisation overwrites. */
  datatype GatewayStatus = GatewayStatus(
    name: string,
    address: string,
    loss: string,
    lossValue: real,
    delay: string,
    delayValue: real,
    standardDev: string,
    standardDevValue: real,
    statusTranslated: string,
    statusValue: real)

  /** The decoded payload: the records in order and the top-level status. */
  datatype GatewayStatusResponse = GatewayStatusResponse(items: seq<GatewayStatus>, status: string)

  /** `strconv.ParseFloat(s, 64)`: a number, or `None` for a syntax or range error. */
  type Parser = string -> Option<real>

  const StatusOK: int := 200
  const LossSuffix: string := " %"
  const MillisecondSuffix: string := " ms"
  const Online: string := "Online"

  /** The step of the HTTP exchange that failed before a status code was seen. */
  datatype Stage = CreateRequest | SendRequest | ReadBody

  /** What the HTTP exchange produced: a failure before any reply, or the
      status code and the outcome of decoding the body as JSON. */
  datatype Exchange =
    | Failed(stage: Stage, reason: string)
    | Replied(statusCode: int, body: Result<GatewayStatusResponse, string>)

  /** The textual fields normalisation parses, in the order it parses them. */
  datatype Field = Loss | Delay | StandardDev

  /** The errors `getGatewayStatus` returns. */
  datatype Error =
    | TransportError(stage: Stage, reason: string)
    | NonOkStatus(code: int)
    | JsonError(reason: string)
    | ParseError(field: Field, text: string)

  /** `strings.HasSuffix`. */
  predicate HasSuffix(s: string, suffix: string) {
    |suffix| <= |s| && s[|s| - |suffix|..] == suffix
  }

  /** `strings.TrimSuffix`: drops one trailing `suffix` if there is one. */
  function TrimSuffix(s: string, suffix: string): (r: string)
    ensures HasSuffix(s, suffix) ==> r + suffix == s && |r| == |s| - |suffix|
    ensures !HasSuffix(s, suffix) ==> r == s
  {
    if HasSuffix(s, suffix) then s[..|s| - |suffix|] else s
  }

  /** Trimming undoes appending the suffix, and only one copy is removed. */
  lemma TrimSuffixOfAppended(t: string, suffix: string)
    ensures TrimSuffix(t + suffix, suffix) == t
  {
    assert (t + suffix)[|t|..] == suffix;
    assert (t + suffix)[..|t|] == t;
  }

  /** The order in which one record's fields are parsed. */
  function Rank(f: Field): nat {
    match f
    case Loss => 0
    case Delay => 1
    case StandardDev => 2
  }

  /** The text handed to the parser for field `f` of `g`. */
  function FieldText(g: GatewayStatus, f: Field): string {
    match f
    case Loss => TrimSuffix(g.loss, LossSuffix)
    case Delay => TrimSuffix(g.delay, MillisecondSuffix)
    case StandardDev => TrimSuffix(g.standardDev, MillisecondSuffix)
  }

  /** All three textual fields of `g` parse. */
  predicate ItemParses(g: GatewayStatus, parse: Parser) {
    parse(FieldText(g, Loss)).Some? && parse(FieldText(g, Delay)).Some? && parse(FieldText(g, StandardDev)).Some?
  }

  /** The numeric status: 1.0 exactly for the case-sensitive text "Online". */
  function StatusValue(statusTranslated: string): (v: real)
    ensures v == 1.0 <==> statusTranslated == Online
    ensures v == 0.0 <==> statusTranslated != Online
  {
    if statusTranslated == Online then 1.0 else 0.0
  }

  /** The error normalising `g` stops with, if any. */
  function ItemFailure(g: GatewayStatus, parse: Parser): (e: Option<Error>)
    ensures e.None? <==> ItemParses(g, parse)
  {
    if parse(FieldText(g, Loss)).None? then Some(ParseError(Loss, FieldText(g, Loss)))
    else if parse(FieldText(g, Delay)).None? then Some(ParseError(Delay, FieldText(g, Delay)))
    else if parse(FieldText(g, StandardDev)).None? then Some(ParseError(StandardDev, FieldText(g, StandardDev)))
    else None
  }

  /** A record's error names a field whose trimmed text fails to parse, with
      that text, and every field parsed before it (loss, then delay, then
      standard deviation) succeeds. */
  lemma ItemFailureReportsFirst(g: GatewayStatus, parse: Parser)
    requires !ItemParses(g, parse)
    ensures var e := ItemFailure(g, parse).value;
      && e.ParseError? && e.text == FieldText(g, e.field) && parse(e.text).None?
      && forall f :: Rank(f) < Rank(e.field) ==> parse(FieldText(g, f)).Some?
  {
  }

  /** `g` with its four numeric fields written from its textual fields. */
  function Normalized(g: GatewayStatus, parse: Parser): GatewayStatus
    requires ItemParses(g, parse)
  {
    g.(lossValue := parse(FieldText(g, Loss)).value,
       delayValue := parse(FieldText(g, Delay)).value,
       standardDevValue := parse(FieldText(g, StandardDev)).value,
       statusValue := StatusValue(g.statusTranslated))
  }

  /** The fields the JSON decoding filled in are the same in `a` and `b`. */
  predicate SameDecodedFields(a: GatewayStatus, b: GatewayStatus) {
    && a.name == b.name
    && a.address == b.address
    && a.loss == b.loss
    && a.delay == b.delay
    && a.standardDev == b.standardDev
    && a.statusTranslated == b.statusTranslated
  }

  /** Normalisation of a whole batch, item by item: the first failing item's
      error, or every item normalised. */
  function NormalizeAll(items: seq<GatewayStatus>, parse: Parser): Result<seq<GatewayStatus>, Error>
    decreases |items|
  {
    if items == [] then Success([])
    else match ItemFailure(items[0], parse)
      case Some(e) => Failure(e)
      case None =>
        match NormalizeAll(items[1..], parse)
        case Failure(e) => Failure(e)
        case Success(rest) => Success([Normalized(items[0], parse)] + rest)
  }

  /** What `getGatewayStatus` returns for an exchange. */
  function GatewayStatusResult(exchange: Exchange, parse: Parser): Result<GatewayStatusResponse, Error> {
    match exchange
    case Failed(stage, reason) => Failure(TransportError(stage, reason))
    case Replied(code, body) =>
      if code != StatusOK then Failure(NonOkStatus(code))
      else match body
        case Failure(reason) => Failure(JsonError(reason))
        case Success(response) =>
          match NormalizeAll(response.items, parse)
          case Failure(e) => Failure(e)
          case Success(items) => Success(response.(items := items))
  }

  /** A batch normalises exactly when every one of its items parses. */
  lemma {:induction false} NormalizeAllSucceedsIff(items: seq<GatewayStatus>, parse: Parser)
    ensures NormalizeAll(items, parse).Success? <==> forall j :: 0 <= j < |items| ==> ItemParses(items[j], parse)
    decreases |items|
  {
    if items != [] {
      NormalizeAllSucceedsIff(items[1..], parse);
      assert forall j :: 1 <= j < |items| ==> items[j] == items[1..][j - 1];
    }
  }

  /** A normalised batch keeps its length and order, and item `j` of the result
      is item `j` of the input with its numeric fields written. */
  lemma {:induction false} NormalizeAllPointwise(items: seq<GatewayStatus>, parse: Parser)
    requires NormalizeAll(items, parse).Success?
    ensures |NormalizeAll(items, parse).value| == |items|
    ensures forall j :: 0 <= j < |items| ==>
      ItemParses(items[j], parse) && NormalizeAll(items, parse).value[j] == Normalized(items[j], parse)
    decreases |items|
  {
    if items != [] {
      NormalizeAllPointwise(items[1..], parse);
      assert forall j :: 1 <= j < |items| ==> items[j] == items[1..][j - 1];
    }
  }

  /** The converse: a sequence that holds every item normalised is the result. */
  lemma {:induction false} NormalizeAllOfNormalized(items: seq<GatewayStatus>, out: seq<GatewayStatus>, parse: Parser)
    requires |out| == |items|
    requires forall j :: 0 <= j < |items| ==> ItemParses(items[j], parse) && out[j] == Normalized(items[j], parse)
    ensures NormalizeAll(items, parse) == Success(out)
    decreases |items|
  {
    if items != [] {
      assert forall j :: 0 <= j < |items| - 1 ==> items[1..][j] == items[j + 1] && out[1..][j] == out[j + 1];
      NormalizeAllOfNormalized(items[1..], out[1..], parse);
      assert out == [out[0]] + out[1..];
    }
  }

  /** When item `k` is the first that does not parse, the batch fails with
      item `k`'s own error. */
  lemma {:induction false} NormalizeAllFailsAt(items: seq<GatewayStatus>, k: nat, parse: Parser)
    requires k < |items|
    requires forall j :: 0 <= j < k ==> ItemParses(items[j], parse)
    requires !ItemParses(items[k], parse)
    ensures NormalizeAll(items, parse) == Failure(ItemFailure(items[k], parse).value)
    decreases k
  {
    if k > 0 {
      assert ItemParses(items[0], parse);
      assert forall j :: 0 <= j < k - 1 ==> items[1..][j] == items[j + 1];
      NormalizeAllFailsAt(items[1..], k - 1, parse);
    }
  }

  /** A failing batch reports the error of its earliest failing item. */
  lemma {:induction false} NormalizeAllFirstFailure(items: seq<GatewayStatus>, parse: Parser)
    requires NormalizeAll(items, parse).Failure?
    ensures exists k :: (0 <= k < |items| && (forall j :: 0 <= j < k ==> ItemParses(items[j], parse))
      && ItemFailure(items[k], parse) == Some(NormalizeAll(items, parse).error))
    decreases |items|
  {
    if ItemParses(items[0], parse) {
      NormalizeAllFirstFailure(items[1..], parse);
      var k :| 0 <= k < |items| - 1 && (forall j :: 0 <= j < k ==> ItemParses(items[1..][j], parse))
        && ItemFailure(items[1..][k], parse) == Some(NormalizeAll(items[1..], parse).error);
      assert forall j :: 1 <= j < k + 1 ==> items[j] == items[1..][j - 1];
      assert ItemFailure(items[k + 1], parse) == Some(NormalizeAll(items, parse).error);
    } else {
      assert ItemFailure(items[0], parse) == Some(NormalizeAll(items, parse).error);
    }
  }

  /**
   * `getGatewayStatus` from the point where the reply is in: a non-200
   * status is an error, a body that is not JSON is an error, and otherwise
   * every record is normalised in place, loss then delay then standard
   * deviation then status, returning at the first text that does not parse.
   */
  method GetGatewayStatus(exchange: Exchange, parse: Parser) returns (r: Result<GatewayStatusResponse, Error>)
    ensures r == GatewayStatusResult(exchange, parse)
    ensures exchange.Replied? && exchange.statusCode != StatusOK ==> r == Failure(NonOkStatus(exchange.statusCode))
  {
    if exchange.Failed? {
      return Failure(TransportError(exchange.stage, exchange.reason));
    }
    if exchange.statusCode != StatusOK {
      return Failure(NonOkStatus(exchange.statusCode));
    }
    if exchange.body.Failure? {
      return Failure(JsonError(exchange.body.error));
    }
    var response := exchange.body.value;
    var decoded := response.items;
    var items := new GatewayStatus[|decoded|](j requires 0 <= j < |decoded| => decoded[j]);
    for i := 0 to items.Length
      invariant forall j :: 0 <= j < i ==> ItemParses(decoded[j], parse) && items[j] == Normalized(decoded[j], parse)
      invariant forall j :: i <= j < items.Length ==> items[j] == decoded[j]
    {
      var loss := parse(TrimSuffix(items[i].loss, LossSuffix));
      if loss.None? {
        NormalizeAllFailsAt(decoded, i, parse);
        return Failure(ParseError(Loss, TrimSuffix(items[i].loss, LossSuffix)));
      }
      items[i] := items[i].(lossValue := loss.value);

      var delay := parse(TrimSuffix(items[i].delay, MillisecondSuffix));
      if delay.None? {
        NormalizeAllFailsAt(decoded, i, parse);
        return Failure(ParseError(Delay, TrimSuffix(items[i].delay, MillisecondSuffix)));
      }
      items[i] := items[i].(delayValue := delay.value);

      var stddev := parse(TrimSuffix(items[i].standardDev, MillisecondSuffix));
      if stddev.None? {
        NormalizeAllFailsAt(decoded, i, parse);
        return Failure(ParseError(StandardDev, TrimSuffix(items[i].standardDev, MillisecondSuffix)));
      }
      items[i] := items[i].(standardDevValue := stddev.value);

      var online := items[i].statusTranslated == Online;
      if online {
        items[i] := items[i].(statusValue := 1.0);
      } else {
        items[i] := items[i].(statusValue := 0.0);
      }
    }
    NormalizeAllOfNormalized(decoded, items[..], parse);
    return Success(response.(items := items[..]));
  }

  /** A non-200 status is an error whatever the body holds. */
  lemma NonOkStatusIgnoresBody(code: int, body1: Result<GatewayStatusResponse, string>,
                               body2: Result<GatewayStatusResponse, string>, parse: Parser)
    requires code != StatusOK
    ensures GatewayStatusResult(Replied(code, body1), parse) == GatewayStatusResult(Replied(code, body2), parse)
    ensures GatewayStatusResult(Replied(code, body1), parse) == Failure(NonOkStatus(code))
  {
  }

  /** All or nothing: a 200 reply with a decoded body is a response exactly
      when every record parses, and otherwise the error of the earliest record
      that fails, loss checked before delay before standard deviation. */
  lemma AllOrNothing(response: GatewayStatusResponse, parse: Parser)
    ensures var r := GatewayStatusResult(Replied(StatusOK, Success(response)), parse);
      && (r.Success? <==> forall j :: 0 <= j < |response.items| ==> ItemParses(response.items[j], parse))
      && (r.Failure? ==> exists k :: (0 <= k < |response.items|
            && (forall j :: 0 <= j < k ==> ItemParses(response.items[j], parse))
            && ItemFailure(response.items[k], parse) == Some(r.error)))
  {
    NormalizeAllSucceedsIff(response.items, parse);
    if NormalizeAll(response.items, parse).Failure? {
      NormalizeAllFirstFailure(response.items, parse);
    }
  }

  /** A successful fetch keeps the top-level status and every record in order,
      changes none of the decoded fields, and writes exactly the parsed
      numbers and the status value into the four numeric fields. */
  lemma ResponseOnSuccess(exchange: Exchange, parse: Parser)
    requires GatewayStatusResult(exchange, parse).Success?
    ensures exchange.Replied? && exchange.statusCode == StatusOK && exchange.body.Success?
    ensures var decoded := exchange.body.value;
            var response := GatewayStatusResult(exchange, parse).value;
      && response.status == decoded.status
      && |response.items| == |decoded.items|
      && forall j :: 0 <= j < |decoded.items| ==>
           var g, n := decoded.items[j], response.items[j];
           && SameDecodedFields(n, g)
           && parse(FieldText(g, Loss)) == Some(n.lossValue)
           && parse(FieldText(g, Delay)) == Some(n.delayValue)
           && parse(FieldText(g, StandardDev)) == Some(n.standardDevValue)
           && (n.statusValue == 1.0 <==> g.statusTranslated == Online)
           && (n.statusValue == 0.0 <==> g.statusTranslated != Online)
  {
    NormalizeAllPointwise(exchange.body.value.items, parse);
  }

  /** A missing unit suffix is not an error in itself: in a batch whose
      records all parse, a loss, delay or standard deviation of record `j`
      without its suffix is parsed as it stands, and its value is written. */
  lemma MissingSuffixIsNotAnError(items: seq<GatewayStatus>, j: nat, parse: Parser)
    requires j < |items|
    requires forall i :: 0 <= i < |items| ==> ItemParses(items[i], parse)
    ensures NormalizeAll(items, parse).Success? && |NormalizeAll(items, parse).value| == |items|
    ensures var g, n := items[j], NormalizeAll(items, parse).value[j];
      && (!HasSuffix(g.loss, LossSuffix) ==> parse(g.loss) == Some(n.lossValue))
      && (!HasSuffix(g.delay, MillisecondSuffix) ==> parse(g.delay) == Some(n.delayValue))
      && (!HasSuffix(g.standardDev, MillisecondSuffix) ==> parse(g.standardDev) == Some(n.standardDevValue))
  {
    NormalizeAllSucceedsIff(items, parse);
    NormalizeAllPointwise(items, parse);
  }
}
