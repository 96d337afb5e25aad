/** Values shared by the paginator and the aggregator of history.go. */
module SpotTypes {

  datatype Option<T> = None | Some(value: T)

  /** What strconv.ParseFloat makes of an observation's price string. */
  datatype ParsedPrice = Parsed(value: real) | SyntaxError

  /** One ec2.SpotPrice record as the core uses it: its availability zone and its
      parsed price. The timestamp the provider also sends is never read. */
  datatype Obs = Obs(zone: string, price: ParsedPrice)

  /** The Go struct `price`. While grouping, `cost` holds the running sum of the
      zone's prices; after averaging it holds the marked-up, rounded mean. */
  datatype Price = Price(zone: string, cost: real, count: int)

  /** The value avg adds to a zone's sum: the parse error is discarded, so a
      malformed price string adds 0. */
  function PriceOf(p: ParsedPrice): real
  {
    match p
    case Parsed(v) => v
    case SyntaxError => 0.0
  }
}
