/** The shapes of data that flow from the storage arrays into the exporter:
  * field values, records, upstream replies, and the failures Python raises. */
module Records {
  import opened Strings

  /** A field value of an upstream record: JSON null (Python `None`), a number, a
    * string, or a list of nested records (a pod's member arrays). */
  datatype Value = Null | Num(n: int) | Str(s: string) | Items(items: seq<map<string, Value>>)

  /** A FlashArray REST dictionary, or a FlashBlade SDK object keyed by attribute
    * path (`space.snapshots`, `account.name`). */
  type Record = map<string, Value>

  /** The exceptions that abort a scrape. */
  datatype Failure =
    | KeyError(key: Value)     // dictionary subscript of a missing key
    | IndexError               // `[0]` of an empty listing
    | TypeError                // `float(None)`, `str + None`, `re.match` on a non-string
    | ValueError               // unpacking a split of the wrong length, `float` of text
    | AttributeError           // a method called on `None`
    | UpstreamError            // the storage array's API call raised
    | Exception(message: string)  // a plain `Exception` raised with a message

  datatype Result<T> = Ok(value: T) | Err(error: Failure)

  datatype Option<T> = None | Some(value: T)

  /** What a step that only changes state reports. */
  datatype Outcome = Pass | Fail(error: Failure)

  /** The answer of one upstream API call: the data it returned, or an exception. */
  datatype Reply<T> = Answered(data: T) | Raised

  /** `d[k]`: the value, or `KeyError`. */
  function Subscript(r: Record, k: string): (res: Result<Value>)
    ensures res.Ok? <==> k in r
    ensures res.Ok? ==> res.value == r[k]
    ensures res.Err? ==> res.error == KeyError(Str(k))
  {
    if k in r then Ok(r[k]) else Err(KeyError(Str(k)))
  }

  /** Attribute access on an SDK object: an attribute the object does not carry reads as `None`. */
  function Attr(r: Record, k: string): Value
  {
    if k in r then r[k] else Null
  }

  /** `x if x is not None else 0`. */
  function OrZero(v: Value): (w: Value)
    ensures w != Null
    ensures v != Null ==> w == v
  {
    if v.Null? then Num(0) else v
  }

  /** `float(x)` on a field value: numbers pass, `None` is a `TypeError`; numeric text is not modelled. */
  function ToFloat(v: Value): (r: Result<Value>)
    ensures r.Ok? <==> v.Num?
    ensures r.Ok? ==> r.value == v
  {
    match v
    case Num(_) => Ok(v)
    case Str(_) => Err(ValueError)
    case _ => Err(TypeError)
  }

  /** How a value is rendered as a label value. */
  function Text(v: Value): string
  {
    match v
    case Null => "None"
    case Num(n) => IntToString(n)
    case Str(s) => s
    case Items(_) => "[...]"
  }

  /** The data of a reply, or the exception the call raised. */
  function Listing<T>(reply: Reply<T>): (r: Result<T>)
    ensures r.Ok? <==> reply.Answered?
  {
    match reply
    case Answered(d) => Ok(d)
    case Raised => Err(UpstreamError)
  }

  /** `call(...).items[0]` (or `call(...)[0]`): the first element of a listing. */
  function First<T>(reply: Reply<seq<T>>): (r: Result<T>)
    ensures r.Ok? <==> reply.Answered? && |reply.data| > 0
    ensures r.Ok? ==> r.value == reply.data[0]
  {
    match reply
    case Raised => Err(UpstreamError)
    case Answered(d) => if |d| == 0 then Err(IndexError) else Ok(d[0])
  }
}
