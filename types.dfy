/** Market-data value types shared by every component: time frames, sides,
    data-quality flags, error codes and the `Result` wrapper, together with
    the conversion tables between time frames, their names and their lengths. */
module Types {

  /** Bar intervals, in declaration order. */
  datatype Timeframe =
    | Tick | Second1 | Minute1 | Minute5 | Minute15 | Minute30
    | Hour1 | Hour4 | Day1 | Week1 | Month1

  datatype Side = Buy | Sell | Unknown

  datatype DataQuality = Good | Suspicious | Bad | Missing

  /** One OHLCV bar. Timestamps are Unix milliseconds (the 64-bit width is not modelled). */
  datatype Ohlcv = Ohlcv(
    timestamp: int,
    symbol: string,
    exchange: string,
    timeframe: Timeframe,
    open: real,
    high: real,
    low: real,
    close: real,
    volume: real,
    quoteVolume: real,
    tradesCount: int,
    quality: DataQuality)

  /** The bar built by the default constructor. */
  function DefaultOhlcv(): (b: Ohlcv)
    ensures b.timestamp == 0 && b.tradesCount == 0
    ensures b.open == 0.0 && b.high == 0.0 && b.low == 0.0 && b.close == 0.0
    ensures b.volume == 0.0 && b.quoteVolume == 0.0
    ensures b.symbol == "" && b.exchange == ""
    ensures b.timeframe == Minute1 && b.quality == Good
  {
    Ohlcv(0, "", "", Minute1, 0.0, 0.0, 0.0, 0.0, 0.0, 0.0, 0, Good)
  }

  datatype Tick = Tick(
    timestamp: int,
    symbol: string,
    exchange: string,
    price: real,
    volume: real,
    side: Side,
    tradeId: string)

  datatype OrderBookLevel = OrderBookLevel(price: real, volume: real)

  datatype OrderBook = OrderBook(
    timestamp: int,
    symbol: string,
    exchange: string,
    bids: seq<OrderBookLevel>,
    asks: seq<OrderBookLevel>,
    sequence: int)

  /** The exchange-style name of a time frame. */
  function TimeframeToString(tf: Timeframe): (s: string)
    ensures s != ""
    ensures StringToTimeframe(s) == tf
  {
    match tf
    case Tick => "tick"
    case Second1 => "1s"
    case Minute1 => "1m"
    case Minute5 => "5m"
    case Minute15 => "15m"
    case Minute30 => "30m"
    case Hour1 => "1h"
    case Hour4 => "4h"
    case Day1 => "1d"
    case Week1 => "1w"
    case Month1 => "1M"
  }

  /** True iff `s` is the name of some time frame. */
  predicate IsTimeframeName(s: string)
  {
    s in {"tick", "1s", "1m", "5m", "15m", "30m", "1h", "4h", "1d", "1w", "1M"}
  }

  /** Parses a time-frame name; matching is exact (case-sensitive), and every
      string that names no time frame falls back to one minute. */
  function StringToTimeframe(s: string): (tf: Timeframe)
    ensures !IsTimeframeName(s) ==> tf == Minute1
  {
    if s == "tick" then Timeframe.Tick
    else if s == "1s" then Second1
    else if s == "1m" then Minute1
    else if s == "5m" then Minute5
    else if s == "15m" then Minute15
    else if s == "30m" then Minute30
    else if s == "1h" then Hour1
    else if s == "4h" then Hour4
    else if s == "1d" then Day1
    else if s == "1w" then Week1
    else if s == "1M" then Month1
    else Minute1
  }

  /** Every time-frame name parses back to itself, so names and time frames
      are in one-to-one correspondence. */
  lemma NameParsesToItself(s: string)
    requires IsTimeframeName(s)
    ensures TimeframeToString(StringToTimeframe(s)) == s
  {
  }

  /** Position of a time frame in declaration order. */
  function Rank(tf: Timeframe): nat
  {
    match tf
    case Tick => 0
    case Second1 => 1
    case Minute1 => 2
    case Minute5 => 3
    case Minute15 => 4
    case Minute30 => 5
    case Hour1 => 6
    case Hour4 => 7
    case Day1 => 8
    case Week1 => 9
    case Month1 => 10
  }

  /** Length of a time frame in milliseconds; the tick and the month have none (0). */
  function TimeframeToMilliseconds(tf: Timeframe): (ms: int)
    ensures ms == 0 <==> tf == Timeframe.Tick || tf == Month1
    ensures tf == Second1 ==> ms == 1000
    ensures tf == Week1 ==> ms == 604800000
  {
    match tf
    case Second1 => 1000
    case Minute1 => 60 * 1000
    case Minute5 => 5 * 60 * 1000
    case Minute15 => 15 * 60 * 1000
    case Minute30 => 30 * 60 * 1000
    case Hour1 => 60 * 60 * 1000
    case Hour4 => 4 * 60 * 60 * 1000
    case Day1 => 24 * 60 * 60 * 1000
    case Week1 => 7 * 24 * 60 * 60 * 1000
    case _ => 0
  }

  /** From one second up to one week, a later time frame is strictly longer. */
  lemma MillisecondsIncreasing(a: Timeframe, b: Timeframe)
    requires Rank(Second1) <= Rank(a) < Rank(b) <= Rank(Week1)
    ensures 0 < TimeframeToMilliseconds(a) < TimeframeToMilliseconds(b)
  {
  }

  /** Names are case-sensitive: "1m" is a minute and "1M" a month. */
  lemma TimeframeNamesCaseSensitive()
    ensures StringToTimeframe("1m") == Minute1
    ensures StringToTimeframe("1M") == Month1
    ensures StringToTimeframe("1H") == Minute1
    ensures StringToTimeframe("") == Minute1
  {
  }

  datatype ErrorCode =
    | Success | NetworkError | HttpError | ParseError
    | InvalidParams | RateLimitExceeded | Timeout | UnknownError

  /** The human-readable text of an error code. */
  function ErrorCodeToString(code: ErrorCode): (s: string)
    ensures s != ""
  {
    match code
    case Success => "Success"
    case NetworkError => "Network error"
    case HttpError => "HTTP error"
    case ParseError => "Parse error"
    case InvalidParams => "Invalid params"
    case RateLimitExceeded => "Rate limit exceeded"
    case Timeout => "Timeout"
    case UnknownError => "Unknown error"
  }

  /** Distinct codes have distinct texts. */
  lemma ErrorCodeTextsDistinct(a: ErrorCode, b: ErrorCode)
    requires a != b
    ensures ErrorCodeToString(a) != ErrorCodeToString(b)
  {
  }

  /** The collectors' result wrapper. `data` is only meaningful on success. */
  datatype Result<T> = Result(success: bool, errorCode: ErrorCode, errorMessage: string, data: T)

  /** The default-constructed result: a failure with an unknown error. The
      payload is whatever the payload type default-constructs to. */
  function DefaultResult<T>(defaultData: T): (r: Result<T>)
    ensures !r.success && r.errorCode == UnknownError && r.errorMessage == ""
    ensures r.data == defaultData
  {
    Result(false, UnknownError, "", defaultData)
  }

  /** A successful result carrying `data`. */
  function Ok<T>(data: T, defaultData: T): (r: Result<T>)
    ensures r.success && r.errorCode == Success && r.errorMessage == ""
    ensures r.data == data
  {
    DefaultResult(defaultData).(success := true, errorCode := Success, errorMessage := "", data := data)
  }

  /** A failed result with `code`; an empty message is replaced by the code's text,
      so a failure always carries a non-empty message. */
  function Err<T>(code: ErrorCode, message: string, defaultData: T): (r: Result<T>)
    ensures !r.success && r.errorCode == code
    ensures r.errorMessage != ""
    ensures message != "" ==> r.errorMessage == message
    ensures message == "" ==> r.errorMessage == ErrorCodeToString(code)
    ensures r.data == defaultData
  {
    DefaultResult(defaultData).(
      success := false,
      errorCode := code,
      errorMessage := if message == "" then ErrorCodeToString(code) else message)
  }
}
