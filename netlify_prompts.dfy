/** The netlify function behind `/prompts`: GET lists the shared list newest first;
    POST builds a record from the body, runs six checks in a fixed order, and pushes
    the record onto the capped list. Every exception, a failed check included, ends
    in a 500 response carrying the exception's message. */
module NetlifyPrompts {
  import opened Results
  import opened Js
  import opened Records
  import opened ListStore
  import opened Listing

  // ---------------------------------------------------------------------------
  // Building the record
  // ---------------------------------------------------------------------------

  /** A property `x` for which `x?.trim()` does not throw. */
  predicate TextLike(v: Value) {
    v.Undefined? || v.Null? || v.Str?
  }

  /** Absent, null, or a string of whitespace only: `x?.trim()` gives a falsy result. */
  predicate Blank(v: Value) {
    v.Undefined? || v.Null? || (v.Str? && SpaceBetween(v.s, 0, |v.s|))
  }

  /** `x?.trim() || fallback` when `x` is text-like. */
  function TextOr(v: Value, fallback: string): (r: string)
    requires TextLike(v)
    ensures Blank(v) ==> r == fallback
    ensures !Blank(v) ==> r == Trim(v.s) && r != "" && Tight(r)
  {
    match v
    case Str(s) => if Trim(s) == "" then fallback else Trim(s)
    case _ => fallback
  }

  /** The TypeError message of `data.<field>?.trim()` when the property is neither
      nullish nor a string. */
  function NotAFunction(field: string): string {
    "data." + field + "?.trim is not a function"
  }

  /** The properties that are trimmed, in the order the object literal evaluates them. */
  function TextFields(data: Submission): seq<(string, Value)> {
    [("nama", data.nama), ("description", data.description), ("prompt", data.prompt),
     ("creator", data.creator), ("sellerContact", data.sellerContact)]
  }

  /** `str.substr(start, length)` for non-negative arguments: up to `length`
      characters of `s` from index `start` on, and nothing when `start` is past the end. */
  function Substr(s: string, start: nat, length: nat): (r: string)
    ensures start >= |s| ==> r == []
    ensures start < |s| ==> |r| == Min(length, |s| - start)
    ensures forall i | 0 <= i < |r| :: start + i < |s| && r[i] == s[start + i]
  {
    var lo := Min(start, |s|);
    s[lo..Min(start + length, |s|)]
  }

  /** A body whose trimmed properties are all text-like builds a record. */
  predicate WellTyped(data: Submission) {
    TextLike(data.nama) && TextLike(data.description) && TextLike(data.prompt)
    && TextLike(data.creator) && TextLike(data.sellerContact)
  }

  /** `prompt-${Date.now()}-${Math.random().toString(36).substr(2, 9)}`, with the clock
      reading and the random number's base-36 text given. */
  function PromptId(idTime: int, random36: string): (id: string)
    ensures |id| >= 7 && id[..7] == "prompt-"
  {
    "prompt-" + NumberToString(idTime) + "-" + Substr(random36, 2, 9)
  }

  const Paid := Str("paid")

  /** `data.priceType === 'paid' ? parseInt(data.price) || 0 : 0` */
  function PriceOf(data: Submission): (price: int)
    ensures data.priceType != Paid ==> price == 0
    ensures data.priceType == Paid && ParseInt(data.price).None? ==> price == 0
    ensures data.priceType == Paid && ParseInt(data.price).Some? ==> price == ParseInt(data.price).value
  {
    if data.priceType == Paid then
      match ParseInt(data.price)
      case None => 0
      case Some(n) => if n == 0 then 0 else n
    else 0
  }

  /** The object literal `newPrompt`. `idTime` and `timestamp` are the two readings of
      `Date.now()`; `random36` is `Math.random().toString(36)`. The literal throws a
      TypeError at the first trimmed property that is neither nullish nor a string. */
  function BuildPrompt(data: Submission, idTime: int, random36: string, timestamp: int): (r: Result<NetlifyPrompt>)
    ensures r.Err? <==> !WellTyped(data)
    ensures r.Err? ==> exists k | 0 <= k < 5 ::
      !TextLike(TextFields(data)[k].1) && r.message == NotAFunction(TextFields(data)[k].0)
      && forall j | 0 <= j < k :: TextLike(TextFields(data)[j].1)
    ensures r.Ok? ==> (
      var p := r.value;
      && p.id == PromptId(idTime, random36)
      && p.nama == TextOr(data.nama, "")
      && p.ai == (if data.ai.Arr? then data.ai.elems else [])
      && p.description == TextOr(data.description, "")
      && p.prompt == TextOr(data.prompt, "")
      && p.encryptedPrompt == Or(data.encryptedPrompt, Null)
      && p.creator == TextOr(data.creator, "Anonymous")
      && p.isAnonymous == Or(data.isAnonymous, Bool(false))
      && p.priceType == Or(data.priceType, Str("free"))
      && p.price == PriceOf(data)
      && p.sellerContact == TextOr(data.sellerContact, "")
      && p.rating == 0 && p.ratingCount == 0 && p.comments == []
      && p.timestamp == timestamp && p.status == "approved")
  {
    var fields := TextFields(data);
    if !TextLike(data.nama) then
      assert fields[0] == ("nama", data.nama);
      Err(NotAFunction("nama"))
    else if !TextLike(data.description) then
      assert fields[1] == ("description", data.description) && TextLike(fields[0].1);
      Err(NotAFunction("description"))
    else if !TextLike(data.prompt) then
      assert fields[2] == ("prompt", data.prompt) && TextLike(fields[0].1) && TextLike(fields[1].1);
      Err(NotAFunction("prompt"))
    else if !TextLike(data.creator) then
      assert fields[3] == ("creator", data.creator);
      assert TextLike(fields[0].1) && TextLike(fields[1].1) && TextLike(fields[2].1);
      Err(NotAFunction("creator"))
    else if !TextLike(data.sellerContact) then
      assert fields[4] == ("sellerContact", data.sellerContact);
      assert TextLike(fields[0].1) && TextLike(fields[1].1) && TextLike(fields[2].1) && TextLike(fields[3].1);
      Err(NotAFunction("sellerContact"))
    else
      Ok(NetlifyPrompt(
        id := PromptId(idTime, random36),
        nama := TextOr(data.nama, ""),
        ai := if data.ai.Arr? then data.ai.elems else [],
        description := TextOr(data.description, ""),
        prompt := TextOr(data.prompt, ""),
        encryptedPrompt := Or(data.encryptedPrompt, Null),
        creator := TextOr(data.creator, "Anonymous"),
        isAnonymous := Or(data.isAnonymous, Bool(false)),
        priceType := Or(data.priceType, Str("free")),
        price := PriceOf(data),
        sellerContact := TextOr(data.sellerContact, ""),
        rating := 0,
        ratingCount := 0,
        comments := [],
        timestamp := timestamp,
        status := "approved"))
  }

  // ---------------------------------------------------------------------------
  // The validation chain
  // ---------------------------------------------------------------------------

  /** The messages of the six checks, in the order they run. */
  const RuleMessages: seq<string> := [
    "Nama prompt diperlukan",
    "Pilih minimal 1 AI yang didukung",
    "Deskripsi diperlukan",
    "Konten prompt diperlukan",
    "Harga minimal Rp 1.000 untuk prompt berbayar",
    "Kontak penjual diperlukan untuk prompt berbayar"]

  /** Check `k` of the chain accepts `p`. */
  predicate Passes(p: NetlifyPrompt, k: nat)
    requires k < 6
  {
    match k
    case 0 => p.nama != ""
    case 1 => |p.ai| != 0
    case 2 => p.description != ""
    case 3 => p.prompt != "" || Truthy(p.encryptedPrompt)
    case 4 => p.priceType != Paid || p.price >= 1000
    case _ => p.priceType != Paid || p.sellerContact != ""
  }

  /** Every check accepts `p`. */
  predicate Acceptable(p: NetlifyPrompt) {
    forall k | 0 <= k < 6 :: Passes(p, k)
  }

  /** The guard chain: the message of the first check that fails, if any. */
  function Validate(p: NetlifyPrompt): (r: Option<string>)
    ensures r.None? <==> Acceptable(p)
    ensures r.Some? ==> exists k | 0 <= k < 6 ::
      r.value == RuleMessages[k] && !Passes(p, k) && forall j | 0 <= j < k :: Passes(p, j)
  {
    if p.nama == "" then
      assert !Passes(p, 0);
      Some(RuleMessages[0])
    else if |p.ai| == 0 then
      assert Passes(p, 0) && !Passes(p, 1);
      Some(RuleMessages[1])
    else if p.description == "" then
      assert Passes(p, 0) && Passes(p, 1) && !Passes(p, 2);
      Some(RuleMessages[2])
    else if p.prompt == "" && !Truthy(p.encryptedPrompt) then
      assert Passes(p, 0) && Passes(p, 1) && Passes(p, 2) && !Passes(p, 3);
      Some(RuleMessages[3])
    else if p.priceType == Paid && p.price < 1000 then
      assert Passes(p, 0) && Passes(p, 1) && Passes(p, 2) && Passes(p, 3) && !Passes(p, 4);
      Some(RuleMessages[4])
    else if p.priceType == Paid && p.sellerContact == "" then
      assert Passes(p, 0) && Passes(p, 1) && Passes(p, 2) && Passes(p, 3) && Passes(p, 4);
      assert !Passes(p, 5);
      Some(RuleMessages[5])
    else
      assert Passes(p, 0) && Passes(p, 1) && Passes(p, 2) && Passes(p, 3) && Passes(p, 4) && Passes(p, 5);
      None
  }

  /** The six messages are distinct, so the message names the check that failed. */
  lemma RuleMessagesDistinct()
    ensures forall i, j | 0 <= i < j < 6 :: RuleMessages[i] != RuleMessages[j]
  {
  }

  /** The POST path up to the push: parse the body, build the record, validate it. */
  function Create(body: RequestBody, idTime: int, random36: string, timestamp: int): (r: Result<NetlifyPrompt>)
    ensures body.Unparseable? ==> r == Err(body.message)
    ensures body.NullJson? ==> r == Err(NullBodyMessage)
    ensures body.Parsed? && BuildPrompt(body.data, idTime, random36, timestamp).Err? ==>
      r == Err(BuildPrompt(body.data, idTime, random36, timestamp).message)
    ensures r.Ok? ==> (body.Parsed? && Acceptable(r.value)
      && Ok(r.value) == BuildPrompt(body.data, idTime, random36, timestamp))
    ensures body.Parsed? && BuildPrompt(body.data, idTime, random36, timestamp).Ok? ==>
      (r.Ok? <==> Acceptable(BuildPrompt(body.data, idTime, random36, timestamp).value))
    ensures (body.Parsed? && BuildPrompt(body.data, idTime, random36, timestamp).Ok?
      && !Acceptable(BuildPrompt(body.data, idTime, random36, timestamp).value)) ==>
      r == Err(Validate(BuildPrompt(body.data, idTime, random36, timestamp).value).value)
  {
    match body
    case Unparseable(m) => Err(m)
    case NullJson => Err(NullBodyMessage)
    case Parsed(data) =>
      var p :- BuildPrompt(data, idTime, random36, timestamp);
      match Validate(p)
      case Some(m) => Err(m)
      case None => Ok(p)
  }

  // ---------------------------------------------------------------------------
  // Properties of construction and validation
  // ---------------------------------------------------------------------------

  /** Stored text is trimmed: every stored text field is `Tight`, so trimming it again
      changes nothing (`TrimTight`), and the creator is never empty. */
  lemma StoredTextIsTrimmed(data: Submission, idTime: int, random36: string, timestamp: int)
    requires WellTyped(data)
    ensures var p := BuildPrompt(data, idTime, random36, timestamp).value;
      && Tight(p.nama) && Tight(p.description) && Tight(p.prompt)
      && Tight(p.creator) && Tight(p.sellerContact) && p.creator != ""
  {
    assert Tight("Anonymous");
  }

  /** An empty or blank name is reported before anything else the checks could find. */
  lemma EmptyNameComesFirst(data: Submission, idTime: int, random36: string, timestamp: int)
    requires WellTyped(data) && Blank(data.nama)
    ensures Create(Parsed(data), idTime, random36, timestamp) == Err("Nama prompt diperlukan")
  {
  }

  /** The content check passes exactly when the trimmed prompt text is non-empty or an
      encrypted prompt is given. */
  lemma ContentRule(data: Submission, idTime: int, random36: string, timestamp: int)
    requires WellTyped(data)
    ensures Passes(BuildPrompt(data, idTime, random36, timestamp).value, 3)
      <==> !Blank(data.prompt) || Truthy(data.encryptedPrompt)
  {
  }

  /** For a paid prompt whose price is the number `n`, the price check passes exactly
      when `n >= 1000`: 1000 passes, 999 does not, and there is no upper bound. A free
      prompt always passes and is stored with price 0. */
  lemma PriceRule(data: Submission, n: int, idTime: int, random36: string, timestamp: int)
    requires WellTyped(data) && data.price == Num(n)
    ensures var p := BuildPrompt(data, idTime, random36, timestamp).value;
      && (data.priceType == Paid ==> p.price == n && (Passes(p, 4) <==> n >= 1000))
      && (data.priceType != Paid ==> p.price == 0 && Passes(p, 4))
  {
    var p := BuildPrompt(data, idTime, random36, timestamp).value;
    assert ParseInt(data.price) == Some(n);
    assert p.price == PriceOf(data) && p.priceType == Or(data.priceType, Str("free"));
  }

  /** A paid prompt without a seller contact is rejected: by the contact check, by an
      earlier check, or by the TypeError of a property that is not text. */
  lemma PaidNeedsContact(data: Submission, idTime: int, random36: string, timestamp: int)
    requires data.priceType == Paid && Blank(data.sellerContact)
    ensures Create(Parsed(data), idTime, random36, timestamp).Err?
  {
    if WellTyped(data) {
      assert !Passes(BuildPrompt(data, idTime, random36, timestamp).value, 5);
    }
  }

  // ---------------------------------------------------------------------------
  // The handler
  // ---------------------------------------------------------------------------

  const CreatedMessage := "Prompt berhasil ditambahkan"

  /** The `error` of a 500 response: `error.message || 'Internal server error'`. */
  function ErrorText(message: string): (text: string)
    ensures text != ""
    ensures message != "" ==> text == message
    ensures message == "" ==> text == "Internal server error"
  {
    if message == "" then "Internal server error" else message
  }

  /** GET: read the whole list, parse every element, sort newest first. */
  method Get(store: RedisList<Entry>) returns (resp: Response)
    ensures resp.statusCode == 200 <==> forall i | 0 <= i < |store.items| :: store.items[i].Serialized?
    ensures resp.statusCode == 200 ==> (
      && resp.body.Listing?
      && resp.body.prompts == ListPrompts(store.items).value
      && NewestFirst(resp.body.prompts)
      && |resp.body.prompts| == |store.items|)
    ensures resp.statusCode != 200 ==>
      resp == Response(500, Failed(ErrorText(ListPrompts(store.items).message)))
  {
    var items := store.LRange(0, -1);
    RangeWhole(store.items);
    match ListPrompts(items)
    case Ok(ps) =>
      resp := Response(200, Listing(ps));
    case Err(m) =>
      resp := Response(500, Failed(ErrorText(m)));
  }

  /** POST: build and check the record; on success push it onto the front of the list
      and cap the list at 1000 elements. Any failure happens before the push, so a
      rejected body leaves the list as it was. */
  method Post(store: RedisList<Entry>, body: RequestBody, idTime: int, random36: string, timestamp: int)
    returns (resp: Response)
    modifies store
    ensures match Create(body, idTime, random36, timestamp)
      case Ok(p) =>
        && resp == Response(201, Created(FromNetlify(p), Some(CreatedMessage)))
        && store.items == PushCapped(old(store.items), Serialized(FromNetlify(p)))
      case Err(m) =>
        && resp == Response(500, Failed(ErrorText(m)))
        && store.items == old(store.items)
    ensures resp.statusCode == 201 ==>
      && |store.items| <= Capacity
      && store.items[0] == Serialized(resp.body.prompt)
      && store.items[1..] == old(store.items)[..|store.items| - 1]
  {
    var created := Create(body, idTime, random36, timestamp);
    if created.Err? {
      resp := Response(500, Failed(ErrorText(created.message)));
    } else {
      var entry := Serialized(FromNetlify(created.value));
      PushRecord(store, entry);
      resp := Response(201, Created(FromNetlify(created.value), Some(CreatedMessage)));
    }
  }

  /** `lpush` of the record followed by `ltrim prompts 0 999`. */
  method PushRecord(store: RedisList<Entry>, entry: Entry)
    modifies store
    ensures store.items == PushCapped(old(store.items), entry)
    ensures |store.items| <= Capacity && store.items[0] == entry
    ensures store.items[1..] == old(store.items)[..|store.items| - 1]
  {
    var _ := store.LPush(entry);
    store.LTrim(0, Capacity - 1);
    PushCappedShape(old(store.items), entry);
  }
}
