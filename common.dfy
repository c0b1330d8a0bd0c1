/** Types shared by both order books and the event handler. */
module Common {

  datatype Option<+T> = None | Some(value: T)

  /** One `[price, quantity]` pair of a depth update or snapshot, both kept as
      the decimal strings the exchange sends (the `ask` / `bid` types). */
  datatype Level = Level(price: string, quantity: string)

  /** The one quantity spelling that the code treats as "remove this price". */
  const RemovalQuantity: string := "0.000"

  /** `strconv.ParseFloat(s, 32)`, abstracted: a partial map from a decimal
      string to a number, `None` when the string does not parse. Nothing is
      assumed about it; in particular two spellings of one number ("100.0",
      "100.00") are distinct strings that may parse to the same value. */
  type Parser = string -> Option<real>
}
