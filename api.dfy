/** The front end's HTTP client: the response envelope, the field-fallback
    normalisers for codes, klines, candles, back-tests, the all-codes
    report, the screener and the grid, and the query of the streaming
    back-test socket. A response arrives as the parsed JSON body. */
module Api {
  import opened Common
  import opened Js
  import Engine
  import Route

  /** The message `unwrap` throws when a failed envelope carries none. */
  const RequestFailed := "接口请求失败"

  /** The client's base URL. */
  const BaseUrl := "http://localhost:8080/api"

  // ---------------------------------------------------------------------
  // The envelope.

  /** The body the back end wraps every answer in: `{code, msg, data}`. */
  function Envelope(code: real, msg: string, data: Json): Json {
    Obj(map["code" := Num(code), "msg" := Str(msg), "data" := data])
  }

  predicate IsEnvelope(d: Json) {
    Truthy(d) && d.Obj? && Has(d, "code") && Has(d, "data")
  }

  /** `unwrap`: an object carrying both `code` and `data` yields its data
      when its code reads as 200 and throws its message otherwise; any other
      body passes through. */
  function Unwrap(d: Json, text: string -> Float, show: Json -> string): (r: Outcome<Json>)
    ensures !IsEnvelope(d) ==> r == Returns(d)
    ensures IsEnvelope(d) ==>
      (r.Returns? <==> ToNumber(Field(d, "code"), text) == Finite(200.0))
    ensures IsEnvelope(d) && r.Returns? ==> r.value == Field(d, "data")
    ensures r.Throws? ==> r.error == Error(Display(FirstTruthy(d, ["msg"], Str(RequestFailed)), show))
  {
    if IsEnvelope(d) then
      if ToNumber(Field(d, "code"), text) != Finite(200.0) then
        Throws(Error(Display(FirstTruthy(d, ["msg"], Str(RequestFailed)), show)))
      else Returns(Field(d, "data"))
    else Returns(d)
  }

  /** A successful envelope hands over its data untouched, and a failed one
      throws its message, or the default message when that is empty. */
  lemma UnwrapEnvelope(code: real, msg: string, data: Json, text: string -> Float, show: Json -> string)
    ensures code == 200.0 ==> Unwrap(Envelope(code, msg, data), text, show) == Returns(data)
    ensures code != 200.0 ==>
      Unwrap(Envelope(code, msg, data), text, show)
        == Throws(Error(if msg == "" then RequestFailed else msg))
  {
    var d := Envelope(code, msg, data);
    assert Field(d, "msg") == Str(msg);
    assert Field(d, "code") == Num(code);
  }

  // ---------------------------------------------------------------------
  // Lists of rows.

  /** `Array.isArray(body) ? body : (body[k0] || body[k1] || [])`, ready to
      be mapped over: reading a property of null or undefined, or mapping
      over something that is not an array, throws a TypeError. */
  function RowsOf(body: Json, keys: seq<string>): (r: Outcome<seq<Json>>)
    ensures body.Arr? ==> r == Returns(body.items)
    ensures Nullish(body) ==> r == Throws(TypeError)
    ensures !body.Arr? && !Nullish(body) ==>
      var l := FirstTruthy(body, keys, Arr([]));
      r == (if l.Arr? then Returns(l.items) else Throws(TypeError))
  {
    if body.Arr? then Returns(body.items)
    else if Nullish(body) then Throws(TypeError)
    else
      var l := FirstTruthy(body, keys, Arr([]));
      if l.Arr? then Returns(l.items) else Throws(TypeError)
  }

  /** `rows.map(f)`: the first row whose mapping throws ends the map with
      that exception; otherwise every row is mapped, in order. */
  function MapRows<T>(rows: seq<Json>, f: Json -> Outcome<T>): (r: Outcome<seq<T>>)
    ensures r.Returns? <==> forall i :: 0 <= i < |rows| ==> f(rows[i]).Returns?
    ensures r.Returns? ==>
      |r.value| == |rows| && forall i :: 0 <= i < |rows| ==> r.value[i] == f(rows[i]).value
    ensures forall j :: 0 <= j < |rows| && f(rows[j]).Throws? &&
                        (forall i :: 0 <= i < j ==> f(rows[i]).Returns?) ==>
                          r == Throws(f(rows[j]).error)
    decreases |rows|
  {
    if |rows| == 0 then Returns([])
    else match f(rows[0])
      case Throws(e) => Throws(e)
      case Returns(x) =>
        match MapRows(rows[1..], f)
        case Throws(e) => Throws(e)
        case Returns(xs) => Returns([x] + xs)
  }

  /** The rows of a response: the envelope unwrapped, then the list picked
      out with `keys`, then each row mapped. */
  function ListOf<T>(data: Json, keys: seq<string>, f: Json -> Outcome<T>,
                     text: string -> Float, show: Json -> string): (r: Outcome<seq<T>>)
    ensures Unwrap(data, text, show).Throws? ==> r == Throws(Unwrap(data, text, show).error)
    ensures Unwrap(data, text, show).Returns? ==>
      var rows := RowsOf(Unwrap(data, text, show).value, keys);
      r == (if rows.Throws? then Throws(rows.error) else MapRows(rows.value, f))
  {
    match Unwrap(data, text, show)
    case Throws(e) => Throws(e)
    case Returns(body) =>
      match RowsOf(body, keys)
      case Throws(e) => Throws(e)
      case Returns(rows) => MapRows(rows, f)
  }

  // ---------------------------------------------------------------------
  // getCodes.

  datatype Code = Code(code: string, name: string)

  /** A string row is its own code and name; an object row takes
      `code ?? Code ?? ''` and `name ?? Name ?? code ?? Code ?? ''`. */
  function CodeOf(s: Json, show: Json -> string): (r: Outcome<Code>)
    ensures s.Str? ==> r == Returns(Code(s.s, s.s))
    ensures Nullish(s) ==> r == Throws(TypeError)
    ensures !s.Str? && !Nullish(s) ==>
      r == Returns(Code(Display(FirstDefined(s, ["code", "Code"], Str("")), show),
                        Display(FirstDefined(s, ["name", "Name", "code", "Code"], Str("")), show)))
  {
    if s.Str? then Returns(Code(s.s, s.s))
    else if Nullish(s) then Throws(TypeError)
    else
      Returns(Code(Display(FirstDefined(s, ["code", "Code"], Str("")), show),
                   Display(FirstDefined(s, ["name", "Name", "code", "Code"], Str("")), show)))
  }

  function CodeReader(show: Json -> string): Json -> Outcome<Code> {
    s => CodeOf(s, show)
  }

  function GetCodes(data: Json, text: string -> Float, show: Json -> string): (r: Outcome<seq<Code>>)
    ensures Unwrap(data, text, show).Throws? ==> r == Throws(Unwrap(data, text, show).error)
    ensures Unwrap(data, text, show).Returns? && Nullish(Unwrap(data, text, show).value) ==> r == Throws(TypeError)
    ensures r.Returns? ==>
      Unwrap(data, text, show).Returns? && RowsOf(Unwrap(data, text, show).value, ["codes", "Codes"]).Returns?
      && var rows := RowsOf(Unwrap(data, text, show).value, ["codes", "Codes"]).value;
         |r.value| == |rows|
         && forall i :: 0 <= i < |rows| ==> !Nullish(rows[i]) && CodeOf(rows[i], show) == Returns(r.value[i])
  {
    ListOf(data, ["codes", "Codes"], CodeReader(show), text, show)
  }

  /** How the back end's `CodesResp` rows (no JSON tags, so the keys are
      `Code` and `Name`) arrive. */
  function EncodeCode(c: Code): Json {
    Obj(map["Code" := Str(c.code), "Name" := Str(c.name)])
  }

  /** The rows of a code list as the back end sends it. */
  function CodeRows(codes: seq<Code>): (rows: seq<Json>)
    ensures |rows| == |codes|
  {
    seq(|codes|, i requires 0 <= i < |codes| => EncodeCode(codes[i]))
  }

  lemma CodeReadBack(c: Code, show: Json -> string)
    ensures CodeOf(EncodeCode(c), show) == Returns(c)
  {
    var o := EncodeCode(c);
    assert Field(o, "code").Undefined? && Field(o, "Code") == Str(c.code);
    assert Field(o, "name").Undefined? && Field(o, "Name") == Str(c.name);
  }

  /** The code list the back end sends, wrapped in a successful envelope,
      reads back as the same codes and names, in order. */
  lemma GetCodesReadsBackEnd(codes: seq<Code>, msg: string, text: string -> Float, show: Json -> string)
    ensures GetCodes(Envelope(200.0, msg, Arr(CodeRows(codes))), text, show) == Returns(codes)
  {
    var rows := CodeRows(codes);
    UnwrapEnvelope(200.0, msg, Arr(rows), text, show);
    var f := CodeReader(show);
    forall i | 0 <= i < |rows|
      ensures f(rows[i]) == Returns(codes[i])
    {
      CodeReadBack(codes[i], show);
    }
    var r := MapRows(rows, f);
    assert r.Returns?;
    assert r.value == codes;
  }

  /** An object row with a `code` but no name is named after its code. */
  lemma NamelessCodeNamedByCode(s: Json, c: string, show: Json -> string)
    requires s.Obj? && "code" in s.fields && s.fields["code"] == Str(c)
    requires "name" !in s.fields && "Name" !in s.fields
    ensures CodeOf(s, show) == Returns(Code(c, c))
  {
    assert Field(s, "code") == Str(c);
  }

  // ---------------------------------------------------------------------
  // Times.

  /** A row's time: a millisecond instant (shown with `toISOString`), or
      the text of a non-numeric value. */
  datatype Stamp = Instant(ms: int) | Text(s: string)

  /** Truncation toward zero, as `new Date` applies to its argument. */
  function Trunc(x: real): (i: int)
    ensures 0.0 <= x ==> i == x.Floor
    ensures x < 0.0 ==> i == -((-x).Floor)
  {
    if 0.0 <= x then x.Floor else -((-x).Floor)
  }

  /** `new Date(t * (t > 1e10 ? 1 : 1000)).toISOString()` for a number t,
      `String(t)` otherwise. A number above 1e10 is taken as milliseconds,
      any other as seconds; an instant past 8.64e15 ms from the epoch makes
      `toISOString` throw a RangeError. */
  function StampOf(t: Json, show: Json -> string): (r: Outcome<Stamp>)
    ensures !t.Num? ==> r == Returns(Text(Display(t, show)))
    ensures t.Num? && 10000000000.0 < t.n <= 8640000000000000.0 ==> r == Returns(Instant(Trunc(t.n)))
    ensures t.Num? && -8640000000000.0 <= t.n <= 10000000000.0 ==> r == Returns(Instant(Trunc(t.n * 1000.0)))
    ensures t.Num? && (t.n < -8640000000000.0 || 8640000000000000.0 < t.n) ==> r == Throws(RangeError)
  {
    if t.Num? then
      var ms := t.n * (if t.n > 10000000000.0 then 1.0 else 1000.0);
      if ms < -8640000000000000.0 || 8640000000000000.0 < ms then Throws(RangeError)
      else Returns(Instant(Trunc(ms)))
    else Returns(Text(Display(t, show)))
  }

  /** The time of a row: `Time ?? time ?? timestamp ?? ts ?? date`. */
  function TimeOf(c: Json, show: Json -> string): Outcome<Stamp> {
    StampOf(FirstDefined(c, ["Time", "time", "timestamp", "ts", "date"], Undefined), show)
  }

  /** The same instant sent in seconds or in milliseconds reads the same,
      for every instant from late April 1970 up to the year 2286. */
  lemma SecondsAndMillisecondsAgree(s: int, show: Json -> string)
    requires 10000000 < s <= 10000000000
    ensures StampOf(Num(s as real), show) == StampOf(Num(1000.0 * s as real), show)
    ensures StampOf(Num(s as real), show) == Returns(Instant(1000 * s))
  {
    var ms := (1000 * s) as real;
    assert s as real * 1000.0 == ms && 1000.0 * s as real == ms;
    assert ms.Floor == 1000 * s;
    assert s as real <= 10000000000.0 && 10000000000.0 < ms <= 8640000000000000.0;
  }

  // ---------------------------------------------------------------------
  // getKlines and getCandles.

  /** A kline row: prices in yuan (the back end sends thousandths), the
      turnover when one is given, volume and symbol as sent. */
  datatype KlineRow = KlineRow(time: Stamp, open: Float, high: Float, low: Float, close: Float,
                               volume: Json, amount: Option<Float>, symbol: Json)

  /** `Number((v / 1000).toFixed(places))`. */
  function Thousandths(v: Json, places: nat, text: string -> Float): Float {
    FFixed(FDiv(ToNumber(v, text), Finite(1000.0)), places)
  }

  /** An integer price in thousandths reads as exactly that many yuan. */
  lemma PriceInYuan(p: int, text: string -> Float)
    ensures Thousandths(Num(p as real), 4, text) == Finite(PriceFloat(p))
  {
    var x := p as real / 1000.0;
    assert x * Pow10(4) as real == (10 * p) as real;
    FixedExact(x, 4, 10 * p);
  }

  /** `c.Amount ? ... : c.amount ? ... : c.Turnover ? ... : c.trade_amount ?
      ... : undefined`: the first truthy turnover field, in yuan to two
      places. */
  function AmountOf(c: Json, text: string -> Float): (r: Option<Float>)
    ensures var a := FirstTruthy(c, ["Amount", "amount", "Turnover", "trade_amount"], Undefined);
      r == (if Truthy(a) then Some(Thousandths(a, 2, text)) else None)
  {
    var a := FirstTruthy(c, ["Amount", "amount", "Turnover", "trade_amount"], Undefined);
    if Truthy(a) then Some(Thousandths(a, 2, text)) else None
  }

  /** A row with no truthy turnover field has no amount. */
  lemma NoTurnoverNoAmount(c: Json, text: string -> Float)
    requires forall k :: k in ["Amount", "amount", "Turnover", "trade_amount"] ==> !Truthy(Field(c, k))
    ensures AmountOf(c, text) == None
  {
    var ks := ["Amount", "amount", "Turnover", "trade_amount"];
    assert forall j :: 0 <= j < |ks| ==> !Truthy(Field(c, ks[j]));
  }

  function KlineRowOf(c: Json, code: string, text: string -> Float, show: Json -> string): (r: Outcome<KlineRow>)
    ensures Nullish(c) ==> r == Throws(TypeError)
    ensures !Nullish(c) ==> (r.Returns? <==> TimeOf(c, show).Returns?)
    ensures r.Returns? ==>
      r.value.open == Thousandths(FirstDefined(c, ["Open", "open", "o", "OpenPrice"], Num(0.0)), 4, text)
      && r.value.high == Thousandths(FirstDefined(c, ["High", "high", "h", "HighPrice"], Num(0.0)), 4, text)
      && r.value.low == Thousandths(FirstDefined(c, ["Low", "low", "l", "LowPrice"], Num(0.0)), 4, text)
      && r.value.close == Thousandths(FirstDefined(c, ["Close", "close", "c", "ClosePrice"], Num(0.0)), 4, text)
      && r.value.volume == FirstDefined(c, ["Volume", "volume", "v", "TradeVolume"], Num(0.0))
      && r.value.amount == AmountOf(c, text)
      && r.value.symbol == FirstDefined(c, ["Symbol", "symbol", "ticker", "code"], Str(code))
  {
    if Nullish(c) then Throws(TypeError)
    else match TimeOf(c, show)
      case Throws(e) => Throws(e)
      case Returns(t) =>
        Returns(KlineRow(
          t,
          Thousandths(FirstDefined(c, ["Open", "open", "o", "OpenPrice"], Num(0.0)), 4, text),
          Thousandths(FirstDefined(c, ["High", "high", "h", "HighPrice"], Num(0.0)), 4, text),
          Thousandths(FirstDefined(c, ["Low", "low", "l", "LowPrice"], Num(0.0)), 4, text),
          Thousandths(FirstDefined(c, ["Close", "close", "c", "ClosePrice"], Num(0.0)), 4, text),
          FirstDefined(c, ["Volume", "volume", "v", "TradeVolume"], Num(0.0)),
          AmountOf(c, text),
          FirstDefined(c, ["Symbol", "symbol", "ticker", "code"], Str(code))))
  }

  function GetKlines(data: Json, code: string, text: string -> Float, show: Json -> string): (r: Outcome<seq<KlineRow>>)
    ensures Unwrap(data, text, show).Throws? ==> r == Throws(Unwrap(data, text, show).error)
    ensures Unwrap(data, text, show).Returns? && Nullish(Unwrap(data, text, show).value) ==> r == Throws(TypeError)
    ensures r.Returns? ==>
      Unwrap(data, text, show).Returns? && RowsOf(Unwrap(data, text, show).value, ["items", "list"]).Returns?
      && var rows := RowsOf(Unwrap(data, text, show).value, ["items", "list"]).value;
         |r.value| == |rows|
         && forall i :: 0 <= i < |rows| ==> !Nullish(rows[i]) && KlineRowOf(rows[i], code, text, show) == Returns(r.value[i])
  {
    ListOf(data, ["items", "list"], c => KlineRowOf(c, code, text, show), text, show)
  }

  /** A candle row: every value as sent, with the same fallbacks but no
      scaling. */
  datatype CandleRow = CandleRow(time: Stamp, open: Json, high: Json, low: Json, close: Json,
                                 volume: Json, symbol: Json)

  function CandleRowOf(c: Json, symbol: string, show: Json -> string): (r: Outcome<CandleRow>)
    ensures Nullish(c) ==> r == Throws(TypeError)
    ensures !Nullish(c) ==> (r.Returns? <==> TimeOf(c, show).Returns?)
    ensures r.Returns? ==>
      (!Nullish(Field(c, "Open")) ==> r.value.open == Field(c, "Open"))
      && (Nullish(Field(c, "Open")) && !Nullish(Field(c, "open")) ==> r.value.open == Field(c, "open"))
      && (Nullish(Field(c, "Open")) && Nullish(Field(c, "open")) && !Nullish(Field(c, "o")) ==> r.value.open == Field(c, "o"))
      && (Nullish(Field(c, "Open")) && Nullish(Field(c, "open")) && Nullish(Field(c, "o")) ==> r.value.open == Num(0.0))
    ensures r.Returns? ==>
      (!Nullish(Field(c, "High")) ==> r.value.high == Field(c, "High"))
      && (Nullish(Field(c, "High")) && !Nullish(Field(c, "high")) ==> r.value.high == Field(c, "high"))
      && (Nullish(Field(c, "High")) && Nullish(Field(c, "high")) && !Nullish(Field(c, "h")) ==> r.value.high == Field(c, "h"))
      && (Nullish(Field(c, "High")) && Nullish(Field(c, "high")) && Nullish(Field(c, "h")) ==> r.value.high == Num(0.0))
    ensures r.Returns? ==>
      (!Nullish(Field(c, "Low")) ==> r.value.low == Field(c, "Low"))
      && (Nullish(Field(c, "Low")) && !Nullish(Field(c, "low")) ==> r.value.low == Field(c, "low"))
      && (Nullish(Field(c, "Low")) && Nullish(Field(c, "low")) && !Nullish(Field(c, "l")) ==> r.value.low == Field(c, "l"))
      && (Nullish(Field(c, "Low")) && Nullish(Field(c, "low")) && Nullish(Field(c, "l")) ==> r.value.low == Num(0.0))
    ensures r.Returns? ==>
      (!Nullish(Field(c, "Close")) ==> r.value.close == Field(c, "Close"))
      && (Nullish(Field(c, "Close")) && !Nullish(Field(c, "close")) ==> r.value.close == Field(c, "close"))
      && (Nullish(Field(c, "Close")) && Nullish(Field(c, "close")) && !Nullish(Field(c, "c")) ==> r.value.close == Field(c, "c"))
      && (Nullish(Field(c, "Close")) && Nullish(Field(c, "close")) && Nullish(Field(c, "c")) ==> r.value.close == Num(0.0))
    ensures r.Returns? ==>
      (!Nullish(Field(c, "Volume")) ==> r.value.volume == Field(c, "Volume"))
      && (Nullish(Field(c, "Volume")) && !Nullish(Field(c, "volume")) ==> r.value.volume == Field(c, "volume"))
      && (Nullish(Field(c, "Volume")) && Nullish(Field(c, "volume")) && !Nullish(Field(c, "v")) ==> r.value.volume == Field(c, "v"))
      && (Nullish(Field(c, "Volume")) && Nullish(Field(c, "volume")) && Nullish(Field(c, "v")) ==> r.value.volume == Num(0.0))
    ensures r.Returns? ==>
      (!Nullish(Field(c, "Symbol")) ==> r.value.symbol == Field(c, "Symbol"))
      && (Nullish(Field(c, "Symbol")) && !Nullish(Field(c, "symbol")) ==> r.value.symbol == Field(c, "symbol"))
      && (Nullish(Field(c, "Symbol")) && Nullish(Field(c, "symbol")) && !Nullish(Field(c, "ticker")) ==> r.value.symbol == Field(c, "ticker"))
      && (Nullish(Field(c, "Symbol")) && Nullish(Field(c, "symbol")) && Nullish(Field(c, "ticker")) && !Nullish(Field(c, "code")) ==> r.value.symbol == Field(c, "code"))
      && (Nullish(Field(c, "Symbol")) && Nullish(Field(c, "symbol")) && Nullish(Field(c, "ticker")) && Nullish(Field(c, "code")) ==> r.value.symbol == Str(symbol))
  {
    if Nullish(c) then Throws(TypeError)
    else match TimeOf(c, show)
      case Throws(e) => Throws(e)
      case Returns(t) =>
        Returns(CandleRow(
          t,
          FirstDefined(c, ["Open", "open", "o"], Num(0.0)),
          FirstDefined(c, ["High", "high", "h"], Num(0.0)),
          FirstDefined(c, ["Low", "low", "l"], Num(0.0)),
          FirstDefined(c, ["Close", "close", "c"], Num(0.0)),
          FirstDefined(c, ["Volume", "volume", "v"], Num(0.0)),
          FirstDefined(c, ["Symbol", "symbol", "ticker", "code"], Str(symbol))))
  }

  function GetCandles(data: Json, symbol: string, text: string -> Float, show: Json -> string): (r: Outcome<seq<CandleRow>>)
    ensures Unwrap(data, text, show).Throws? ==> r == Throws(Unwrap(data, text, show).error)
    ensures Unwrap(data, text, show).Returns? && Nullish(Unwrap(data, text, show).value) ==> r == Throws(TypeError)
    ensures r.Returns? ==>
      Unwrap(data, text, show).Returns? && RowsOf(Unwrap(data, text, show).value, ["items", "list"]).Returns?
      && var rows := RowsOf(Unwrap(data, text, show).value, ["items", "list"]).value;
         |r.value| == |rows|
         && forall i :: 0 <= i < |rows| ==> !Nullish(rows[i]) && CandleRowOf(rows[i], symbol, show) == Returns(r.value[i])
  {
    ListOf(data, ["items", "list"], c => CandleRowOf(c, symbol, show), text, show)
  }

  /** A candle row under its capitalised keys, as the page hands it on:
      a text time as that text, an instant as its milliseconds. */
  function EncodeCandle(row: CandleRow): (o: Json)
    ensures o.Obj? && "Time" in o.fields
  {
    var t := match row.time case Text(s) => Str(s) case Instant(ms) => Num(ms as real);
    Obj(map["Time" := t, "Open" := row.open, "High" := row.high, "Low" := row.low,
            "Close" := row.close, "Volume" := row.volume, "Symbol" := row.symbol])
  }

  /** A candle row whose values are all given, and whose time is text. */
  predicate WellFormedCandle(row: CandleRow) {
    row.time.Text? && !Nullish(row.open) && !Nullish(row.high) && !Nullish(row.low)
    && !Nullish(row.close) && !Nullish(row.volume) && !Nullish(row.symbol)
  }

  /** The candle list the page hands on. */
  function CandleRows(rows: seq<CandleRow>): (js: seq<Json>)
    ensures |js| == |rows|
  {
    seq(|rows|, i requires 0 <= i < |rows| => EncodeCandle(rows[i]))
  }

  lemma CandleReadBack(row: CandleRow, symbol: string, show: Json -> string)
    requires WellFormedCandle(row)
    ensures CandleRowOf(EncodeCandle(row), symbol, show) == Returns(row)
  {
    var o := EncodeCandle(row);
    assert Field(o, "Time") == Str(row.time.s);
    assert Field(o, "Open") == row.open && Field(o, "High") == row.high && Field(o, "Low") == row.low;
    assert Field(o, "Close") == row.close && Field(o, "Volume") == row.volume;
    assert Field(o, "Symbol") == row.symbol;
  }

  /** Candles in the shape the page hands on, sent back in a successful
      envelope, read as the same candles in the same order, whatever symbol
      was asked for: normalising is idempotent. */
  lemma GetCandlesReadsBack(rows: seq<CandleRow>, msg: string, symbol: string,
                            text: string -> Float, show: Json -> string)
    requires forall i :: 0 <= i < |rows| ==> WellFormedCandle(rows[i])
    ensures GetCandles(Envelope(200.0, msg, Arr(CandleRows(rows))), symbol, text, show) == Returns(rows)
  {
    var js := CandleRows(rows);
    UnwrapEnvelope(200.0, msg, Arr(js), text, show);
    var f := c => CandleRowOf(c, symbol, show);
    forall i | 0 <= i < |js|
      ensures f(js[i]) == Returns(rows[i])
    {
      assert js[i] == EncodeCandle(rows[i]);
      CandleReadBack(rows[i], symbol, show);
    }
    var r := MapRows(js, f);
    assert r.Returns? && r.value == rows;
  }

  // ---------------------------------------------------------------------
  // backtest.

  /** `backtest`: it unwraps the response and hands back the body itself.
      The normalised locals it builds on the way are discarded, so they
      matter only for what they throw on: a null body, a trade list that is
      not an array, or a null trade. */
  function BacktestCall(data: Json, text: string -> Float, show: Json -> string): (r: Outcome<Json>)
    ensures r.Returns? ==> Unwrap(data, text, show) == r
    ensures Unwrap(data, text, show).Throws? ==> r == Unwrap(data, text, show)
    ensures Unwrap(data, text, show).Returns? ==>
      var resp := Unwrap(data, text, show).value;
      var tl := FirstTruthy(resp, ["trades", "Trades"], Arr([]));
      (r.Returns? <==> !Nullish(resp) && tl.Arr? && forall t :: t in tl.items ==> !Nullish(t))
    ensures Unwrap(data, text, show).Returns? && r.Throws? ==> r == Throws(TypeError)
  {
    match Unwrap(data, text, show)
    case Throws(e) => Throws(e)
    case Returns(resp) =>
      if Nullish(resp) then Throws(TypeError)
      else
        var tl := FirstTruthy(resp, ["trades", "Trades"], Arr([]));
        if !tl.Arr? || exists t :: t in tl.items && Nullish(t) then Throws(TypeError)
        else Returns(resp)
  }

  function EncodeTrade(t: Engine.Trade): Json {
    Obj(map["time" := Num(t.time as real), "index" := Num(t.index as real), "price" := Num(t.price),
            "side" := Str(t.side), "qty" := Num(t.qty as real)])
  }

  /** How `engine.Result` goes over the wire (a finite Sharpe ratio: Go
      cannot encode NaN). */
  function EncodeResult(res: Engine.BacktestResult): Json
    requires res.sharpe.Finite?
  {
    Obj(map[
      "equity" := Arr(seq(|res.equity|, i requires 0 <= i < |res.equity| => Num(res.equity[i]))),
      "cash" := Arr(seq(|res.cash|, i requires 0 <= i < |res.cash| => Num(res.cash[i]))),
      "position" := Arr(seq(|res.position|, i requires 0 <= i < |res.position| => Num(res.position[i] as real))),
      "trades" := Arr(seq(|res.trades|, i requires 0 <= i < |res.trades| => EncodeTrade(res.trades[i]))),
      "return" := Num(res.ret),
      "max_drawdown" := Num(res.maxDD),
      "sharpe" := Num(res.sharpe.val)])
  }

  /** A back-test result from the engine comes back exactly as sent. */
  lemma BacktestReadsBackEnd(res: Engine.BacktestResult, msg: string, text: string -> Float, show: Json -> string)
    requires res.sharpe.Finite?
    ensures BacktestCall(Envelope(200.0, msg, EncodeResult(res)), text, show) == Returns(EncodeResult(res))
  {
    var body := EncodeResult(res);
    UnwrapEnvelope(200.0, msg, body, text, show);
    var tl := Field(body, "trades");
    if |res.trades| == 0 {
      assert FirstTruthy(body, ["trades", "Trades"], Arr([])) == Arr([]);
    } else {
      assert Truthy(tl);
      assert FirstTruthy(body, ["trades", "Trades"], Arr([])) == tl;
    }
    assert forall t :: t in tl.items ==> t.Obj?;
  }

  // ---------------------------------------------------------------------
  // backtestAll.

  datatype AllItem = AllItem(code: string, name: string, ret: Float, maxDD: Float, sharpe: Float)
  datatype AllReport = AllReport(avgReturn: Float, avgSharpe: Float, avgMaxDD: Float, count: Float, items: seq<AllItem>)

  function AllItemOf(it: Json, text: string -> Float, show: Json -> string): (r: Outcome<AllItem>)
    ensures Nullish(it) <==> r.Throws?
    ensures r.Returns? ==>
      r.value == AllItem(Display(FirstDefined(it, ["code"], Str("")), show), Display(FirstDefined(it, ["name"], Str("")), show),
                         ToNumber(FirstDefined(it, ["return"], Num(0.0)), text),
                         ToNumber(FirstDefined(it, ["max_drawdown"], Num(0.0)), text),
                         ToNumber(FirstDefined(it, ["sharpe"], Num(0.0)), text))
  {
    if Nullish(it) then Throws(TypeError)
    else Returns(AllItem(Display(FirstDefined(it, ["code"], Str("")), show), Display(FirstDefined(it, ["name"], Str("")), show),
                         ToNumber(FirstDefined(it, ["return"], Num(0.0)), text),
                         ToNumber(FirstDefined(it, ["max_drawdown"], Num(0.0)), text),
                         ToNumber(FirstDefined(it, ["sharpe"], Num(0.0)), text)))
  }

  /** The mapping `backtestAll` applies to each item. */
  function ItemReader(text: string -> Float, show: Json -> string): Json -> Outcome<AllItem> {
    it => AllItemOf(it, text, show)
  }

  /** `backtestAll`: the items mapped with '' and 0 for missing fields, the
      averages with 0, and the count taken from the body or, when absent,
      from the number of items. */
  function BacktestAll(data: Json, text: string -> Float, show: Json -> string): (r: Outcome<AllReport>)
    ensures r.Returns? ==> (
      Unwrap(data, text, show).Returns? &&
      var body := Unwrap(data, text, show).value;
      r.value.count == ToNumber(FirstDefined(body, ["count"], Num(|r.value.items| as real)), text) &&
      r.value.avgReturn == ToNumber(FirstDefined(body, ["avg_return"], Num(0.0)), text))
    ensures Unwrap(data, text, show).Throws? ==> r == Throws(Unwrap(data, text, show).error)
    ensures Unwrap(data, text, show).Returns? ==>
      var body := Unwrap(data, text, show).value;
      var l := FirstTruthy(body, ["items"], Arr([]));
      (r.Returns? <==> !Nullish(body) && l.Arr? && forall it :: it in l.items ==> !Nullish(it))
      && (r.Throws? && (Nullish(body) || !l.Arr?) ==> r == Throws(TypeError))
    ensures r.Returns? ==>
      var body := Unwrap(data, text, show).value;
      var l := FirstTruthy(body, ["items"], Arr([]));
      l.Arr? && |r.value.items| == |l.items|
      && (forall i :: 0 <= i < |l.items| ==> AllItemOf(l.items[i], text, show) == Returns(r.value.items[i]))
      && r.value.avgSharpe == ToNumber(FirstDefined(body, ["avg_sharpe"], Num(0.0)), text)
      && r.value.avgMaxDD == ToNumber(FirstDefined(body, ["avg_max_drawdown"], Num(0.0)), text)
  {
    match Unwrap(data, text, show)
    case Throws(e) => Throws(e)
    case Returns(body) =>
      if Nullish(body) then Throws(TypeError)
      else
        var l := FirstTruthy(body, ["items"], Arr([]));
        if !l.Arr? then Throws(TypeError)
        else match MapRows(l.items, ItemReader(text, show))
          case Throws(e) => Throws(e)
          case Returns(items) => Returns(ReportOf(body, items, text))
  }

  /** The report object: the averages with 0 for missing fields, the count
      with the number of items. */
  function ReportOf(body: Json, items: seq<AllItem>, text: string -> Float): AllReport {
    AllReport(
      ToNumber(FirstDefined(body, ["avg_return"], Num(0.0)), text),
      ToNumber(FirstDefined(body, ["avg_sharpe"], Num(0.0)), text),
      ToNumber(FirstDefined(body, ["avg_max_drawdown"], Num(0.0)), text),
      ToNumber(FirstDefined(body, ["count"], Num(|items| as real)), text),
      items)
  }

  /** How a `BacktestItem` goes over the wire. */
  function EncodeItem(it: Route.BacktestItem): Json
    requires it.sharpe.Finite?
  {
    Obj(map["code" := Str(it.code), "name" := Str(it.name), "return" := Num(it.ret),
            "max_drawdown" := Num(it.maxDD), "sharpe" := Num(it.sharpe.val)])
  }

  predicate Encodable(resp: Route.BacktestAllResp) {
    resp.avgSharpe.Finite? && forall i :: 0 <= i < |resp.items| ==> resp.items[i].sharpe.Finite?
  }

  /** How `BacktestAllResp` goes over the wire. */
  function EncodeReport(resp: Route.BacktestAllResp): Json
    requires Encodable(resp)
  {
    Obj(map[
      "avg_return" := Num(resp.avgReturn), "avg_sharpe" := Num(resp.avgSharpe.val),
      "avg_max_drawdown" := Num(resp.avgMaxDD), "count" := Num(resp.count as real),
      "items" := Arr(ItemRows(resp.items))])
  }

  function ItemRead(it: Route.BacktestItem): AllItem
    requires it.sharpe.Finite?
  {
    AllItem(it.code, it.name, Finite(it.ret), Finite(it.maxDD), it.sharpe)
  }

  function ItemRows(items: seq<Route.BacktestItem>): (rows: seq<Json>)
    requires forall i :: 0 <= i < |items| ==> items[i].sharpe.Finite?
    ensures |rows| == |items|
  {
    seq(|items|, i requires 0 <= i < |items| => EncodeItem(items[i]))
  }

  function ItemsRead(items: seq<Route.BacktestItem>): (r: seq<AllItem>)
    requires forall i :: 0 <= i < |items| ==> items[i].sharpe.Finite?
    ensures |r| == |items|
  {
    seq(|items|, i requires 0 <= i < |items| => ItemRead(items[i]))
  }

  lemma ItemReadBack(it: Route.BacktestItem, text: string -> Float, show: Json -> string)
    requires it.sharpe.Finite?
    ensures AllItemOf(EncodeItem(it), text, show) == Returns(ItemRead(it))
  {
    var o := EncodeItem(it);
    assert Field(o, "code") == Str(it.code);
    assert Field(o, "name") == Str(it.name);
    assert Field(o, "return") == Num(it.ret);
    assert Field(o, "max_drawdown") == Num(it.maxDD);
    assert Field(o, "sharpe") == Num(it.sharpe.val);
  }

  /** Every item the back end sends reads back as sent, in order. */
  lemma ItemsReadBack(items: seq<Route.BacktestItem>, text: string -> Float, show: Json -> string)
    requires forall i :: 0 <= i < |items| ==> items[i].sharpe.Finite?
    ensures MapRows(ItemRows(items), ItemReader(text, show))
              == Returns(ItemsRead(items))
  {
    var rows := ItemRows(items);
    var f := ItemReader(text, show);
    forall i | 0 <= i < |rows|
      ensures f(rows[i]) == Returns(ItemRead(items[i]))
    {
      ItemReadBack(items[i], text, show);
    }
    var r := MapRows(rows, f);
    assert r.Returns?;
    assert r.value == ItemsRead(items);
  }

  /** The all-codes report the back end sends reads back with the same
      averages, the same count and the same items in the same order. */
  lemma BacktestAllReadsBackEnd(resp: Route.BacktestAllResp, msg: string, text: string -> Float, show: Json -> string)
    requires Encodable(resp)
    ensures BacktestAll(Envelope(200.0, msg, EncodeReport(resp)), text, show)
              == Returns(AllReport(Finite(resp.avgReturn), resp.avgSharpe, Finite(resp.avgMaxDD),
                                   Finite(resp.count as real),
                                   ItemsRead(resp.items)))
  {
    var body := EncodeReport(resp);
    UnwrapEnvelope(200.0, msg, body, text, show);
    ReportFields(resp);
    ItemsReadBack(resp.items, text, show);
    ReportOfBody(Envelope(200.0, msg, body), body, ItemRows(resp.items), ItemsRead(resp.items),
                 resp.avgReturn, resp.avgSharpe.val, resp.avgMaxDD, resp.count as real, text, show);
  }

  /** How `backtestAll` reads a body that carries every field. */
  lemma ReportOfBody(data: Json, body: Json, rows: seq<Json>, items: seq<AllItem>,
                     ret: real, sharpe: real, dd: real, count: real, text: string -> Float, show: Json -> string)
    requires Unwrap(data, text, show) == Returns(body) && body.Obj?
    requires Field(body, "items") == Arr(rows) && MapRows(rows, ItemReader(text, show)) == Returns(items)
    requires Field(body, "avg_return") == Num(ret) && Field(body, "avg_sharpe") == Num(sharpe)
    requires Field(body, "avg_max_drawdown") == Num(dd) && Field(body, "count") == Num(count)
    ensures BacktestAll(data, text, show) == Returns(AllReport(Finite(ret), Finite(sharpe), Finite(dd), Finite(count), items))
  {
    assert FirstTruthy(body, ["items"], Arr([])) == Arr(rows);
    ReportOfFields(body, items, ret, sharpe, dd, count, text);
  }

  lemma ReportOfFields(body: Json, items: seq<AllItem>, ret: real, sharpe: real, dd: real, count: real,
                       text: string -> Float)
    requires Field(body, "avg_return") == Num(ret) && Field(body, "avg_sharpe") == Num(sharpe)
    requires Field(body, "avg_max_drawdown") == Num(dd) && Field(body, "count") == Num(count)
    ensures ReportOf(body, items, text) == AllReport(Finite(ret), Finite(sharpe), Finite(dd), Finite(count), items)
  {
    OneKey(body, "avg_return", Num(0.0));
    OneKey(body, "avg_sharpe", Num(0.0));
    OneKey(body, "avg_max_drawdown", Num(0.0));
    OneKey(body, "count", Num(|items| as real));
  }

  lemma OneKey(v: Json, k: string, fallback: Json)
    requires !Nullish(Field(v, k))
    ensures FirstDefined(v, [k], fallback) == Field(v, k)
  {
  }

  lemma ReportFields(resp: Route.BacktestAllResp)
    requires Encodable(resp)
    ensures var body := EncodeReport(resp);
      Field(body, "items") == Arr(ItemRows(resp.items))
      && Field(body, "avg_return") == Num(resp.avgReturn)
      && Field(body, "avg_sharpe") == Num(resp.avgSharpe.val)
      && Field(body, "avg_max_drawdown") == Num(resp.avgMaxDD)
      && Field(body, "count") == Num(resp.count as real)
  {
    var body := EncodeReport(resp);
    assert Field(body, "items") == Arr(ItemRows(resp.items));
    assert Field(body, "avg_return") == Num(resp.avgReturn);
    assert Field(body, "avg_sharpe") == Num(resp.avgSharpe.val);
    assert Field(body, "avg_max_drawdown") == Num(resp.avgMaxDD);
    assert Field(body, "count") == Num(resp.count as real);
  }

  /** A report without a count is counted by its items. */
  lemma CountFallsBackToItems(items: seq<Json>, text: string -> Float, show: Json -> string)
    requires forall it :: it in items ==> !Nullish(it)
    ensures var r := BacktestAll(Obj(map["items" := Arr(items)]), text, show);
      r.Returns? && r.value.count == Finite(|items| as real) && |r.value.items| == |items|
  {
    var body := Obj(map["items" := Arr(items)]);
    assert Field(body, "code").Undefined?;
    assert Unwrap(body, text, show) == Returns(body);
    assert Field(body, "items") == Arr(items);
    assert FirstTruthy(body, ["items"], Arr([])) == Arr(items);
    assert Field(body, "count").Undefined?;
    assert forall i :: 0 <= i < |items| ==> !Nullish(items[i]);
    var r := MapRows(items, ItemReader(text, show));
    assert r.Returns?;
  }

  // ---------------------------------------------------------------------
  // screener and grid.

  datatype Pick = Pick(symbol: Json, score: Json, price: Json, signal: Json)

  function PickOf(it: Json): (r: Outcome<Pick>)
    ensures Nullish(it) <==> r.Throws?
    ensures r.Returns? ==>
      r.value == Pick(FirstDefined(it, ["symbol", "ticker", "code"], Undefined),
                      FirstDefined(it, ["score", "value"], Num(0.0)),
                      FirstDefined(it, ["price", "last"], Num(0.0)),
                      FirstDefined(it, ["signal", "sig"], Num(0.0)))
  {
    if Nullish(it) then Throws(TypeError)
    else Returns(Pick(FirstDefined(it, ["symbol", "ticker", "code"], Undefined),
                      FirstDefined(it, ["score", "value"], Num(0.0)),
                      FirstDefined(it, ["price", "last"], Num(0.0)),
                      FirstDefined(it, ["signal", "sig"], Num(0.0))))
  }

  function Screener(data: Json, text: string -> Float, show: Json -> string): (r: Outcome<seq<Pick>>)
    ensures Unwrap(data, text, show).Throws? ==> r == Throws(Unwrap(data, text, show).error)
    ensures Unwrap(data, text, show).Returns? && Nullish(Unwrap(data, text, show).value) ==> r == Throws(TypeError)
    ensures r.Returns? ==>
      Unwrap(data, text, show).Returns? && RowsOf(Unwrap(data, text, show).value, ["items", "list"]).Returns?
      && var rows := RowsOf(Unwrap(data, text, show).value, ["items", "list"]).value;
         |r.value| == |rows|
         && forall i :: 0 <= i < |rows| ==> !Nullish(rows[i]) && PickOf(rows[i]) == Returns(r.value[i])
  {
    ListOf(data, ["items", "list"], PickOf, text, show)
  }

  datatype GridRow = GridRow(fast: Json, slow: Json, ret: Json, sharpe: Json, maxDD: Json)

  function GridRowOf(g: Json): (r: Outcome<GridRow>)
    ensures Nullish(g) <==> r.Throws?
    ensures r.Returns? ==>
      (!Nullish(Field(g, "fast")) ==> r.value.fast == Field(g, "fast"))
      && (Nullish(Field(g, "fast")) && !Nullish(Field(g, "fast_period")) ==> r.value.fast == Field(g, "fast_period"))
      && (Nullish(Field(g, "fast")) && Nullish(Field(g, "fast_period")) ==> r.value.fast == Num(0.0))
    ensures r.Returns? ==>
      (!Nullish(Field(g, "slow")) ==> r.value.slow == Field(g, "slow"))
      && (Nullish(Field(g, "slow")) && !Nullish(Field(g, "slow_period")) ==> r.value.slow == Field(g, "slow_period"))
      && (Nullish(Field(g, "slow")) && Nullish(Field(g, "slow_period")) ==> r.value.slow == Num(0.0))
    ensures r.Returns? ==>
      (!Nullish(Field(g, "return")) ==> r.value.ret == Field(g, "return"))
      && (Nullish(Field(g, "return")) && !Nullish(Field(g, "ret")) ==> r.value.ret == Field(g, "ret"))
      && (Nullish(Field(g, "return")) && Nullish(Field(g, "ret")) && !Nullish(Field(g, "total_return")) ==> r.value.ret == Field(g, "total_return"))
      && (Nullish(Field(g, "return")) && Nullish(Field(g, "ret")) && Nullish(Field(g, "total_return")) ==> r.value.ret == Num(0.0))
    ensures r.Returns? ==>
      (!Nullish(Field(g, "sharpe")) ==> r.value.sharpe == Field(g, "sharpe"))
      && (Nullish(Field(g, "sharpe")) && !Nullish(Field(g, "Sharpe")) ==> r.value.sharpe == Field(g, "Sharpe"))
      && (Nullish(Field(g, "sharpe")) && Nullish(Field(g, "Sharpe")) ==> r.value.sharpe == Num(0.0))
    ensures r.Returns? ==>
      (!Nullish(Field(g, "max_drawdown")) ==> r.value.maxDD == Field(g, "max_drawdown"))
      && (Nullish(Field(g, "max_drawdown")) && !Nullish(Field(g, "maxDD")) ==> r.value.maxDD == Field(g, "maxDD"))
      && (Nullish(Field(g, "max_drawdown")) && Nullish(Field(g, "maxDD")) && !Nullish(Field(g, "drawdown")) ==> r.value.maxDD == Field(g, "drawdown"))
      && (Nullish(Field(g, "max_drawdown")) && Nullish(Field(g, "maxDD")) && Nullish(Field(g, "drawdown")) ==> r.value.maxDD == Num(0.0))
  {
    if Nullish(g) then Throws(TypeError)
    else Returns(GridRow(FirstDefined(g, ["fast", "fast_period"], Num(0.0)),
                         FirstDefined(g, ["slow", "slow_period"], Num(0.0)),
                         FirstDefined(g, ["return", "ret", "total_return"], Num(0.0)),
                         FirstDefined(g, ["sharpe", "Sharpe"], Num(0.0)),
                         FirstDefined(g, ["max_drawdown", "maxDD", "drawdown"], Num(0.0))))
  }

  function Grid(data: Json, text: string -> Float, show: Json -> string): (r: Outcome<seq<GridRow>>)
    ensures Unwrap(data, text, show).Throws? ==> r == Throws(Unwrap(data, text, show).error)
    ensures Unwrap(data, text, show).Returns? && Nullish(Unwrap(data, text, show).value) ==> r == Throws(TypeError)
    ensures r.Returns? ==>
      Unwrap(data, text, show).Returns? && RowsOf(Unwrap(data, text, show).value, ["items", "list"]).Returns?
      && var rows := RowsOf(Unwrap(data, text, show).value, ["items", "list"]).value;
         |r.value| == |rows|
         && forall i :: 0 <= i < |rows| ==> !Nullish(rows[i]) && GridRowOf(rows[i]) == Returns(r.value[i])
  {
    ListOf(data, ["items", "list"], GridRowOf, text, show)
  }

  /** A grid row under the keys the page reads it by. */
  function EncodeGrid(row: GridRow): (o: Json)
    ensures o.Obj?
  {
    Obj(map["fast" := row.fast, "slow" := row.slow, "return" := row.ret,
            "sharpe" := row.sharpe, "max_drawdown" := row.maxDD])
  }

  predicate WellFormedGrid(row: GridRow) {
    !Nullish(row.fast) && !Nullish(row.slow) && !Nullish(row.ret)
    && !Nullish(row.sharpe) && !Nullish(row.maxDD)
  }

  function GridRows(rows: seq<GridRow>): (js: seq<Json>)
    ensures |js| == |rows|
  {
    seq(|rows|, i requires 0 <= i < |rows| => EncodeGrid(rows[i]))
  }

  lemma GridRowReadBack(row: GridRow)
    requires WellFormedGrid(row)
    ensures GridRowOf(EncodeGrid(row)) == Returns(row)
  {
    var o := EncodeGrid(row);
    assert Field(o, "fast") == row.fast && Field(o, "slow") == row.slow;
    assert Field(o, "return") == row.ret && Field(o, "sharpe") == row.sharpe;
    assert Field(o, "max_drawdown") == row.maxDD;
  }

  /** Grid rows in the shape the page reads, sent back in a successful
      envelope, read as the same rows in the same order: normalising an
      already normalised grid changes nothing. */
  lemma GridReadsBack(rows: seq<GridRow>, msg: string, text: string -> Float, show: Json -> string)
    requires forall i :: 0 <= i < |rows| ==> WellFormedGrid(rows[i])
    ensures Grid(Envelope(200.0, msg, Arr(GridRows(rows))), text, show) == Returns(rows)
  {
    var js := GridRows(rows);
    UnwrapEnvelope(200.0, msg, Arr(js), text, show);
    forall i | 0 <= i < |js|
      ensures GridRowOf(js[i]) == Returns(rows[i])
    {
      assert js[i] == EncodeGrid(rows[i]);
      GridRowReadBack(rows[i]);
    }
    var r := MapRows(js, GridRowOf);
    assert r.Returns? && r.value == rows;
  }

  /** The screener's own items (JSON keys symbol, score, price, signal)
      come through with each field as sent. */
  lemma ScreenerReadsItem(symbol: string, score: real, price: Json, signal: int)
    requires !Nullish(price)
    ensures PickOf(Obj(map["symbol" := Str(symbol), "score" := Num(score), "price" := price,
                           "signal" := Num(signal as real)]))
              == Returns(Pick(Str(symbol), Num(score), price, Num(signal as real)))
  {
  }

  // ---------------------------------------------------------------------
  // backtestAllWS.

  /** The parameters of one streamed run; a number is present when the
      caller passes one (`typeof x === 'number'`). */
  datatype AllReq = AllReq(
    strategy: string, start: Option<string>, end: Option<string>,
    cash: Option<real>, size: Option<real>, feeRate: Option<real>, minFee: Option<real>,
    slippage: Option<real>, stopLoss: Option<real>, takeProfit: Option<real>)

  /** The socket address: the base URL with its scheme rewritten, its path
      replaced, and the query pairs in order. */
  datatype WsUrl = WsUrl(base: string, pathname: string, query: seq<(string, string)>)

  const WsPath := "/api/backtest_all/ws"

  /** `s.replace(/^http/i, 'ws')`. */
  function WsScheme(s: string): (r: string)
    ensures |s| < 4 ==> r == s
  {
    if |s| >= 4 && s[0] in "hH" && s[1] in "tT" && s[2] in "tT" && s[3] in "pP" then "ws" + s[4..]
    else s
  }

  /** http becomes ws and https becomes wss, whatever the case of the
      scheme; the rest of the address is kept. */
  lemma {:induction false} WsSchemeRewrites(rest: string)
    ensures WsScheme("http" + rest) == "ws" + rest
    ensures WsScheme("HTTP" + rest) == "ws" + rest
    ensures WsScheme("https" + rest) == "wss" + rest
  {
    HttpPrefix("http", rest);
    HttpPrefix("HTTP", rest);
    HttpPrefix("http", "s" + rest);
    assert "https" + rest == "http" + ("s" + rest);
  }

  /** Any spelling of `http` in front is replaced by `ws`. */
  lemma HttpPrefix(p: string, rest: string)
    requires |p| == 4 && p[0] in "hH" && p[1] in "tT" && p[2] in "tT" && p[3] in "pP"
    ensures WsScheme(p + rest) == "ws" + rest
  {
    var s := p + rest;
    assert s[0] == p[0] && s[1] == p[1] && s[2] == p[2] && s[3] == p[3];
    assert s[4..] == rest;
  }

  /** The client's socket base. */
  lemma WsBase()
    ensures WsScheme(BaseUrl) == "ws://localhost:8080/api"
  {
    var rest := "://localhost:8080/api";
    assert BaseUrl[..4] == "http" && BaseUrl[4..] == rest;
    assert WsScheme(BaseUrl) == "ws" + BaseUrl[4..];
  }

  /** `params.set(k, v)`: the first pair named k takes the value and later
      ones go; with no such pair, one is appended. */
  function SetPair(ps: seq<(string, string)>, k: string, v: string): seq<(string, string)> {
    if Absent(ps, k) then ps + [(k, v)] else Replace(ps, k, v, false)
  }

  predicate Absent(ps: seq<(string, string)>, k: string) {
    forall i :: 0 <= i < |ps| ==> ps[i].0 != k
  }

  function Replace(ps: seq<(string, string)>, k: string, v: string, seen: bool): (r: seq<(string, string)>)
    ensures forall i :: 0 <= i < |r| ==> r[i].0 != k || r[i] == (k, v)
    decreases |ps|
  {
    if |ps| == 0 then []
    else if ps[0].0 == k then (if seen then [] else [(k, v)]) + Replace(ps[1..], k, v, true)
    else [ps[0]] + Replace(ps[1..], k, v, seen)
  }

  /** Once the first pair named k is behind, the rest lose theirs. */
  lemma {:induction false} ReplaceSeen(ps: seq<(string, string)>, k: string, v: string)
    ensures Absent(Replace(ps, k, v, true), k)
    decreases |ps|
  {
    if |ps| > 0 {
      ReplaceSeen(ps[1..], k, v);
    }
  }

  /** With k present, the pairs after `set(k, v)` name k exactly once, with v. */
  lemma {:induction false} ReplaceFirst(ps: seq<(string, string)>, k: string, v: string) returns (i: int)
    requires !Absent(ps, k)
    ensures var r := Replace(ps, k, v, false);
      0 <= i < |r| && r[i] == (k, v) && forall j :: 0 <= j < |r| && j != i ==> r[j].0 != k
    decreases |ps|
  {
    var rest := ps[1..];
    if ps[0].0 == k {
      ReplaceSeen(rest, k, v);
      i := 0;
    } else {
      assert !Absent(rest, k) by {
        var m :| 0 <= m < |ps| && ps[m].0 == k;
        assert rest[m - 1].0 == k;
      }
      var i' := ReplaceFirst(rest, k, v);
      var tail := Replace(rest, k, v, false);
      assert Replace(ps, k, v, false) == [ps[0]] + tail;
      i := i' + 1;
    }
  }

  /** After `set(k, v)`, k names exactly one pair, and it holds v; with k
      absent before, the pair is appended at the end. */
  lemma SetPairHolds(ps: seq<(string, string)>, k: string, v: string) returns (i: int)
    ensures var r := SetPair(ps, k, v);
      0 <= i < |r| && r[i] == (k, v) && forall j :: 0 <= j < |r| && j != i ==> r[j].0 != k
    ensures Absent(ps, k) ==> SetPair(ps, k, v) == ps + [(k, v)]
  {
    if Absent(ps, k) {
      i := |ps|;
    } else {
      i := ReplaceFirst(ps, k, v);
    }
  }

  /** `URLSearchParams`, as the builder mutates it. */
  class SearchParams {
    var pairs: seq<(string, string)>

    constructor()
      ensures pairs == []
    {
      pairs := [];
    }

    method Set(k: string, v: string)
      modifies this
      ensures pairs == SetPair(old(pairs), k, v)
    {
      if Absent(pairs, k) {
        pairs := pairs + [(k, v)];
      } else {
        pairs := Replace(pairs, k, v, false);
      }
    }
  }

  function TextParam(k: string, o: Option<string>): seq<(string, string)> {
    if o.Some? && o.value != "" then [(k, o.value)] else []
  }

  function NumParam(k: string, o: Option<real>, numText: real -> string): seq<(string, string)> {
    if o.Some? then [(k, numText(o.value))] else []
  }

  /** The query of a streamed run: the strategy always, the dates when
      non-empty, each number when given, in this order. */
  function QueryOf(req: AllReq, numText: real -> string): seq<(string, string)> {
    QueryHead(req) + AmountParams(req, numText) + ExitParams(req, numText)
  }

  function QueryHead(req: AllReq): seq<(string, string)> {
    [("strategy", req.strategy)] + TextParam("start", req.start) + TextParam("end", req.end)
  }

  function AmountParams(req: AllReq, numText: real -> string): seq<(string, string)> {
    NumParam("cash", req.cash, numText) + NumParam("size", req.size, numText)
      + NumParam("fee_rate", req.feeRate, numText) + NumParam("min_fee", req.minFee, numText)
  }

  function ExitParams(req: AllReq, numText: real -> string): seq<(string, string)> {
    NumParam("slippage", req.slippage, numText) + NumParam("stop_loss", req.stopLoss, numText)
      + NumParam("take_profit", req.takeProfit, numText)
  }

  /** Every name in the query appears once. */
  predicate DistinctNames(q: seq<(string, string)>) {
    forall i, j :: 0 <= i < j < |q| ==> q[i].0 != q[j].0
  }

  /** Which pairs the query holds: the strategy, and a date exactly when
      it is given and non-empty. */
  lemma QueryDates(req: AllReq, numText: real -> string)
    ensures var q := QueryOf(req, numText);
      ("strategy", req.strategy) in q
      && (forall v :: ("start", v) in q <==> req.start == Some(v) && v != "")
      && (forall v :: ("end", v) in q <==> req.end == Some(v) && v != "")
  {
    var w := [("strategy", req.strategy)] + TextParam("start", req.start) + TextParam("end", req.end);
    var amounts, exits := AmountParams(req, numText), ExitParams(req, numText);
    assert forall j :: 0 <= j < |amounts| ==> amounts[j].0 in {"cash", "size", "fee_rate", "min_fee"};
    assert forall j :: 0 <= j < |exits| ==> exits[j].0 in {"slippage", "stop_loss", "take_profit"};
    OnlyBefore(w + amounts, exits, "start");
    OnlyBefore(w, amounts, "start");
    OnlyBefore(w + amounts, exits, "end");
    OnlyBefore(w, amounts, "end");
    DateHead(req);
  }

  lemma DateHead(req: AllReq)
    ensures var w := [("strategy", req.strategy)] + TextParam("start", req.start) + TextParam("end", req.end);
      ("strategy", req.strategy) in w
      && (forall v :: ("start", v) in w <==> req.start == Some(v) && v != "")
      && (forall v :: ("end", v) in w <==> req.end == Some(v) && v != "")
  {
    var v := [("strategy", req.strategy)] + TextParam("start", req.start);
    OnlyBefore(v, TextParam("end", req.end), "start");
    OnlyAfter([("strategy", req.strategy)], TextParam("start", req.start), "start");
    OnlyAfter(v, TextParam("end", req.end), "end");
  }

  /** A name missing from the tail is found, if at all, in the head. */
  lemma OnlyBefore(a: seq<(string, string)>, b: seq<(string, string)>, k: string)
    requires forall j :: 0 <= j < |b| ==> b[j].0 != k
    ensures forall v :: (k, v) in a + b <==> (k, v) in a
  {
  }

  /** A name missing from the head is found, if at all, in the tail. */
  lemma OnlyAfter(a: seq<(string, string)>, b: seq<(string, string)>, k: string)
    requires forall j :: 0 <= j < |a| ==> a[j].0 != k
    ensures forall v :: (k, v) in a + b <==> (k, v) in b
  {
  }

  /** A number's pair, when there is one, is its own name and text. */
  lemma NumNamed(k: string, o: Option<real>, numText: real -> string)
    ensures forall x :: x in NumParam(k, o, numText) <==> o.Some? && x == (k, numText(o.value))
  {
  }

  /** A date's pair, when there is one, is its own name and value. */
  lemma TextNamed(k: string, o: Option<string>)
    ensures forall x :: x in TextParam(k, o) <==> o.Some? && o.value != "" && x == (k, o.value)
  {
  }

  /** A number is in the query exactly when it is given, with its text. */
  lemma QueryNumbers(req: AllReq, numText: real -> string)
    ensures var q := QueryOf(req, numText);
      (forall v :: ("cash", v) in q <==> req.cash.Some? && v == numText(req.cash.value))
      && (forall v :: ("size", v) in q <==> req.size.Some? && v == numText(req.size.value))
      && (forall v :: ("fee_rate", v) in q <==> req.feeRate.Some? && v == numText(req.feeRate.value))
      && (forall v :: ("min_fee", v) in q <==> req.minFee.Some? && v == numText(req.minFee.value))
      && (forall v :: ("slippage", v) in q <==> req.slippage.Some? && v == numText(req.slippage.value))
      && (forall v :: ("stop_loss", v) in q <==> req.stopLoss.Some? && v == numText(req.stopLoss.value))
      && (forall v :: ("take_profit", v) in q <==> req.takeProfit.Some? && v == numText(req.takeProfit.value))
  {
    QueryParts(req, numText);
    AmountPairs(req, numText);
    QueryAmounts(req, numText);
    ExitPairs(req, numText);
    QueryExits(req, numText);
  }

  /** The query's head names only the strategy and the dates. */
  lemma QueryParts(req: AllReq, numText: real -> string)
    ensures forall x :: x in QueryHead(req) ==> x.0 in {"strategy", "start", "end"}
  {
    TextNamed("start", req.start);
    TextNamed("end", req.end);
  }

  lemma QueryAmounts(req: AllReq, numText: real -> string)
    requires forall x :: x in QueryHead(req) ==> x.0 in {"strategy", "start", "end"}
    requires forall x :: x in AmountParams(req, numText) <==>
      (req.cash.Some? && x == ("cash", numText(req.cash.value)))
      || (req.size.Some? && x == ("size", numText(req.size.value)))
      || (req.feeRate.Some? && x == ("fee_rate", numText(req.feeRate.value)))
      || (req.minFee.Some? && x == ("min_fee", numText(req.minFee.value)))
    requires forall x :: x in ExitParams(req, numText) ==> x.0 in {"slippage", "stop_loss", "take_profit"}
    ensures var q := QueryOf(req, numText);
      (forall v :: ("cash", v) in q <==> req.cash.Some? && v == numText(req.cash.value))
      && (forall v :: ("size", v) in q <==> req.size.Some? && v == numText(req.size.value))
      && (forall v :: ("fee_rate", v) in q <==> req.feeRate.Some? && v == numText(req.feeRate.value))
      && (forall v :: ("min_fee", v) in q <==> req.minFee.Some? && v == numText(req.minFee.value))
  {
  }

  lemma QueryExits(req: AllReq, numText: real -> string)
    requires forall x :: x in QueryHead(req) ==> x.0 in {"strategy", "start", "end"}
    requires forall x :: x in AmountParams(req, numText) ==> x.0 in {"cash", "size", "fee_rate", "min_fee"}
    requires forall x :: x in ExitParams(req, numText) <==>
      (req.slippage.Some? && x == ("slippage", numText(req.slippage.value)))
      || (req.stopLoss.Some? && x == ("stop_loss", numText(req.stopLoss.value)))
      || (req.takeProfit.Some? && x == ("take_profit", numText(req.takeProfit.value)))
    ensures var q := QueryOf(req, numText);
      (forall v :: ("slippage", v) in q <==> req.slippage.Some? && v == numText(req.slippage.value))
      && (forall v :: ("stop_loss", v) in q <==> req.stopLoss.Some? && v == numText(req.stopLoss.value))
      && (forall v :: ("take_profit", v) in q <==> req.takeProfit.Some? && v == numText(req.takeProfit.value))
  {
  }

  /** The amounts' pairs are the given amounts, each under its own name. */
  lemma AmountPairs(req: AllReq, numText: real -> string)
    ensures forall x :: x in AmountParams(req, numText) <==>
      (req.cash.Some? && x == ("cash", numText(req.cash.value)))
      || (req.size.Some? && x == ("size", numText(req.size.value)))
      || (req.feeRate.Some? && x == ("fee_rate", numText(req.feeRate.value)))
      || (req.minFee.Some? && x == ("min_fee", numText(req.minFee.value)))
  {
    NumNamed("cash", req.cash, numText);
    NumNamed("size", req.size, numText);
    NumNamed("fee_rate", req.feeRate, numText);
    NumNamed("min_fee", req.minFee, numText);
  }

  /** The exits' pairs are the given exits, each under its own name. */
  lemma ExitPairs(req: AllReq, numText: real -> string)
    ensures forall x :: x in ExitParams(req, numText) <==>
      (req.slippage.Some? && x == ("slippage", numText(req.slippage.value)))
      || (req.stopLoss.Some? && x == ("stop_loss", numText(req.stopLoss.value)))
      || (req.takeProfit.Some? && x == ("take_profit", numText(req.takeProfit.value)))
  {
    NumNamed("slippage", req.slippage, numText);
    NumNamed("stop_loss", req.stopLoss, numText);
    NumNamed("take_profit", req.takeProfit, numText);
  }

  /** `backtestAllWS`'s address: built by successive `set` calls on an
      empty `URLSearchParams`. */
  method BacktestAllWS(req: AllReq, numText: real -> string) returns (u: WsUrl)
    ensures u.base == "ws://localhost:8080/api" && u.pathname == WsPath
    ensures u.query == QueryOf(req, numText)
    ensures DistinctNames(u.query)
  {
    WsBase();
    var params := new SearchParams();
    SetHead(params, req);
    SetAmounts(params, req, numText);
    SetExits(params, req, numText);
    u := WsUrl(WsScheme(BaseUrl), WsPath, params.pairs);
  }

  /** The `strategy`, `start` and `end` steps on the empty parameters. */
  method SetHead(params: SearchParams, req: AllReq)
    requires params.pairs == []
    modifies params
    ensures params.pairs == [("strategy", req.strategy)] + TextParam("start", req.start) + TextParam("end", req.end)
    ensures DistinctNames(params.pairs)
    ensures forall j :: 0 <= j < |params.pairs| ==> params.pairs[j].0 in {"strategy", "start", "end"}
  {
    SetStep(params, "strategy", [("strategy", req.strategy)], {});
    SetStep(params, "start", TextParam("start", req.start), {"strategy"});
    SetStep(params, "end", TextParam("end", req.end), {"strategy", "start"});
  }

  /** The `cash`, `size`, `fee_rate` and `min_fee` steps. */
  method SetAmounts(params: SearchParams, req: AllReq, numText: real -> string)
    requires DistinctNames(params.pairs)
    requires forall j :: 0 <= j < |params.pairs| ==> params.pairs[j].0 in {"strategy", "start", "end"}
    modifies params
    ensures params.pairs == old(params.pairs) + AmountParams(req, numText)
    ensures DistinctNames(params.pairs)
    ensures forall j :: 0 <= j < |params.pairs| ==>
      params.pairs[j].0 in {"strategy", "start", "end", "cash", "size", "fee_rate", "min_fee"}
  {
    SetStep(params, "cash", NumParam("cash", req.cash, numText), {"strategy", "start", "end"});
    SetStep(params, "size", NumParam("size", req.size, numText), {"strategy", "start", "end", "cash"});
    SetStep(params, "fee_rate", NumParam("fee_rate", req.feeRate, numText),
            {"strategy", "start", "end", "cash", "size"});
    SetStep(params, "min_fee", NumParam("min_fee", req.minFee, numText),
            {"strategy", "start", "end", "cash", "size", "fee_rate"});
  }

  /** The `slippage`, `stop_loss` and `take_profit` steps. */
  method SetExits(params: SearchParams, req: AllReq, numText: real -> string)
    requires DistinctNames(params.pairs)
    requires forall j :: 0 <= j < |params.pairs| ==>
      params.pairs[j].0 in {"strategy", "start", "end", "cash", "size", "fee_rate", "min_fee"}
    modifies params
    ensures params.pairs == old(params.pairs) + ExitParams(req, numText)
    ensures DistinctNames(params.pairs)
  {
    SetStep(params, "slippage", NumParam("slippage", req.slippage, numText),
            {"strategy", "start", "end", "cash", "size", "fee_rate", "min_fee"});
    SetStep(params, "stop_loss", NumParam("stop_loss", req.stopLoss, numText),
            {"strategy", "start", "end", "cash", "size", "fee_rate", "min_fee", "slippage"});
    SetStep(params, "take_profit", NumParam("take_profit", req.takeProfit, numText),
            {"strategy", "start", "end", "cash", "size", "fee_rate", "min_fee", "slippage", "stop_loss"});
  }

  /** One guarded `params.set(k, ...)`: `extra` is the pair it adds when its
      guard holds; `before` holds the names set so far. */
  method SetStep(params: SearchParams, k: string, extra: seq<(string, string)>, ghost before: set<string>)
    requires |extra| <= 1 && (forall j :: 0 <= j < |extra| ==> extra[j].0 == k)
    requires k !in before && DistinctNames(params.pairs)
    requires forall j :: 0 <= j < |params.pairs| ==> params.pairs[j].0 in before
    modifies params
    ensures params.pairs == old(params.pairs) + extra && DistinctNames(params.pairs)
    ensures forall j :: 0 <= j < |params.pairs| ==> params.pairs[j].0 in before + {k}
  {
    assert Absent(params.pairs, k);
    if |extra| == 1 {
      assert extra == [(k, extra[0].1)];
      params.Set(k, extra[0].1);
    } else {
      assert old(params.pairs) + extra == old(params.pairs);
    }
  }
}
