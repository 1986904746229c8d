/** The values both handlers exchange: the fields of a POST body, the two record
    shapes they write to the shared `prompts` list, the list's entries and the
    HTTP responses. */
module Records {
  import opened Results
  import opened Js

  /** The properties of the parsed POST body that the handlers read. A property the
      body lacks is `Undefined`; so is every property of a body that parsed to a
      number, string, boolean or array. */
  datatype Submission = Submission(
    nama: Value,
    ai: Value,
    description: Value,
    prompt: Value,
    encryptedPrompt: Value,
    creator: Value,
    isAnonymous: Value,
    priceType: Value,
    price: Value,
    sellerContact: Value)

  /** What `JSON.parse(event.body)` produced: a SyntaxError with its message, the
      literal `null`, or a value whose properties can be read. */
  datatype RequestBody =
    | Unparseable(message: string)
    | NullJson
    | Parsed(data: Submission)

  /** The message of the TypeError raised by reading a property of `null`. */
  const NullBodyMessage := "Cannot read properties of null (reading 'nama')"

  /** The record the netlify handler stores. */
  datatype NetlifyPrompt = NetlifyPrompt(
    id: string,
    nama: string,
    ai: seq<Value>,
    description: string,
    prompt: string,
    encryptedPrompt: Value,
    creator: string,
    isAnonymous: Value,
    priceType: Value,
    price: int,
    sellerContact: string,
    rating: int,
    ratingCount: int,
    comments: seq<Value>,
    timestamp: int,
    status: string)

  /** The record the api handler stores. `encryptedPrompt` and `sellerContact` are
      properties the record has only when the paid-content rewrite happened. */
  datatype ApiPrompt = ApiPrompt(
    id: string,
    nama: Value,
    ai: Value,
    description: Value,
    prompt: Value,
    creator: Value,
    priceType: Value,
    price: Value,
    rating: int,
    ratingCount: int,
    timestamp: int,
    status: string,
    encryptedPrompt: Option<Value>,
    sellerContact: Option<Value>)

  /** A record read back from the shared list: either handler may have written it. */
  datatype Prompt = FromNetlify(netlify: NetlifyPrompt) | FromApi(api: ApiPrompt) {
    function Timestamp(): int {
      match this
      case FromNetlify(p) => p.timestamp
      case FromApi(p) => p.timestamp
    }
  }

  /** An element of the `prompts` list: the JSON text of a record, or text that
      `JSON.parse` rejects with the given message. */
  datatype Entry = Serialized(record: Prompt) | Corrupt(message: string)

  /** `JSON.parse` of one list element: the record the element was written from, or
      the parser's exception. */
  function Parse(e: Entry): (r: Result<Prompt>)
    ensures r.Ok? <==> e.Serialized?
    ensures r.Ok? ==> e == Serialized(r.value)
    ensures r.Err? ==> e == Corrupt(r.message)
  {
    match e
    case Serialized(p) => Ok(p)
    case Corrupt(m) => Err(m)
  }

  datatype ResponseBody =
    | Listing(prompts: seq<Prompt>)
    | Created(prompt: Prompt, message: Option<string>)
    | Failed(error: string)

  datatype Response = Response(statusCode: int, body: ResponseBody)
}
