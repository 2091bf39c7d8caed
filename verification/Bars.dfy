/** The bars every layer reads, and the price fields a rule may name. */
module Bars {
  import opened Outcomes

  /** A stored market candle; `adjusted` is the adjusted close, when the feed has one. */
  datatype Candle = Candle(
    ts: int,
    open: real,
    high: real,
    low: real,
    close: real,
    adjusted: Option<real>,
    volume: int)

  /** What an indicator is fed. */
  datatype Sample = Sample(ts: int, open: real, high: real, low: real, close: real, volume: real)

  function SampleOf(c: Candle): Sample {
    Sample(c.ts, c.open, c.high, c.low, c.close, c.volume as real)
  }

  /** A chained indicator sees one number in place of all four prices. */
  function Flat(c: Sample, value: real): Sample {
    Sample(c.ts, value, value, value, value, c.volume)
  }

  datatype Field = Close | Open | High | Low | HL2 | HLC3 | OHLC4 | Volume

  function Price(f: Field, c: Sample): real {
    match f
    case Close => c.close
    case Open => c.open
    case High => c.high
    case Low => c.low
    case HL2 => (c.high + c.low) / 2.0
    case HLC3 => (c.high + c.low + c.close) / 3.0
    case OHLC4 => (c.open + c.high + c.low + c.close) / 4.0
    case Volume => c.volume
  }
}
