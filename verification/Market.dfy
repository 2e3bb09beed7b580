/** Price bars and trade signals, shared by the strategy, the simulator and the bar store. */
module Market {
  import opened Numbers

  datatype Bar = Bar(time: int, open: real, high: real, low: real, close: real, volume: int)

  datatype Side = Buy | Sell
  datatype Action = Hold | Go(side: Side)
  datatype Signal = Signal(action: Action, sl: Option<real>, tp: Option<real>)
}
