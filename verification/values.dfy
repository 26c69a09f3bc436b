/**
 * The Python values the tool functions pass around: the numbers they
 * forward to the remote services without inspecting them, the catalog's
 * event records, and the dictionaries they return.
 */
module Values {

  /**
   * A number forwarded as given. Python keeps `int` and `float` apart
   * (the defaults 1000, 3 and the limit 10 are `int`s), so the model does too;
   * no arithmetic or comparison is ever done on these.
   */
  datatype Number = Int(i: int) | Float(f: real)

  /** One event of the catalog's GeoJSON `features` array, never looked into. */
  datatype Feature = Feature(id: string, properties: map<string, string>)

  datatype Value = Text(text: string) | Num(num: Number) | Events(events: seq<Feature>)

  /** A Python dictionary with string keys, as the tools build and return them. */
  type Dict = map<string, Value>

  /** How a call of a tool function ends: it returns a dictionary or raises. */
  datatype Completion = Returned(reply: Dict) | Raised(message: string)
}
