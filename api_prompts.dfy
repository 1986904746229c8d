/** The api function behind `/prompts`: GET lists the shared list newest first, as the
    netlify function does; POST stores any body that parses, with defaults filled in
    and no checks, after swapping paid encrypted content for a placeholder. Only a
    body that does not parse (or parses to `null`) and a failing list read end in a
    500 response. */
module ApiPrompts {
  import opened Results
  import opened Js
  import opened Records
  import opened ListStore
  import opened Listing

  const EncryptedPlaceholder := "[ENCRYPTED]"

  /** `data.priceType === 'paid' && data.encryptedPrompt`: the record gets the
      ciphertext and the placeholder instead of the prompt text. */
  predicate Protected(data: Submission) {
    data.priceType == Str("paid") && Truthy(data.encryptedPrompt)
  }

  /** `prompt-${Date.now()}`: two records created in the same millisecond share it. */
  function PromptId(idTime: int): (id: string)
    ensures |id| >= 7 && id[..7] == "prompt-"
  {
    "prompt-" + NumberToString(idTime)
  }

  /** Two ids are equal only when their clock readings are: the id repeats exactly
      for records created in the same millisecond. */
  lemma PromptIdInjective(t1: int, t2: int)
    ensures PromptId(t1) == PromptId(t2) <==> t1 == t2
  {
    if PromptId(t1) == PromptId(t2) {
      assert NumberToString(t1) == PromptId(t1)[7..] == PromptId(t2)[7..] == NumberToString(t2);
      ParseIntNumeral(t1);
      ParseIntNumeral(t2);
    }
  }

  /** The record the api handler stores for `data`: the falsy properties replaced by
      their defaults, the fixed fields, and for a paid prompt with ciphertext the
      placeholder text, the ciphertext and the seller contact. */
  predicate ApiRecord(data: Submission, idTime: int, timestamp: int, p: ApiPrompt) {
    && p.id == PromptId(idTime) && p.timestamp == timestamp
    && p.nama == data.nama
    && Truthy(p.ai) && Truthy(p.creator) && Truthy(p.priceType)
    && (Truthy(data.ai) ==> p.ai == data.ai)
    && (!Truthy(data.ai) ==> p.ai == Arr([]))
    && p.description == (if Truthy(data.description) then data.description else Str(""))
    && p.creator == (if Truthy(data.creator) then data.creator else Str("Anonymous"))
    && p.priceType == (if Truthy(data.priceType) then data.priceType else Str("free"))
    && p.price == (if Truthy(data.price) then data.price else Num(0))
    && p.rating == 0 && p.ratingCount == 0 && p.status == "approved"
    && (Protected(data) ==>
      && p.prompt == Str(EncryptedPlaceholder)
      && p.encryptedPrompt == Some(data.encryptedPrompt)
      && p.sellerContact == Some(if Truthy(data.sellerContact) then data.sellerContact else Str("")))
    && (!Protected(data) ==>
      p.prompt == data.prompt && p.encryptedPrompt.None? && p.sellerContact.None?)
  }

  /** The object literal `prompt`, then the three property writes of the paid branch.
      `idTime` and `timestamp` are the two readings of `Date.now()`. */
  method BuildPrompt(data: Submission, idTime: int, timestamp: int) returns (p: ApiPrompt)
    ensures ApiRecord(data, idTime, timestamp, p)
  {
    p := ApiPrompt(
      id := PromptId(idTime),
      nama := data.nama,
      ai := Or(data.ai, Arr([])),
      description := Or(data.description, Str("")),
      prompt := data.prompt,
      creator := Or(data.creator, Str("Anonymous")),
      priceType := Or(data.priceType, Str("free")),
      price := Or(data.price, Num(0)),
      rating := 0,
      ratingCount := 0,
      timestamp := timestamp,
      status := "approved",
      encryptedPrompt := None,
      sellerContact := None);
    if Protected(data) {
      p := p.(encryptedPrompt := Some(data.encryptedPrompt));
      p := p.(sellerContact := Some(Or(data.sellerContact, Str(""))));
      p := p.(prompt := Str(EncryptedPlaceholder));
    }
  }

  /** GET: read the whole list, parse every element, sort newest first; a parse
      failure answers 500 with the exception's message as it is. */
  method Get(store: RedisList<Entry>) returns (resp: Response)
    ensures resp.statusCode == 200 <==> forall i | 0 <= i < |store.items| :: store.items[i].Serialized?
    ensures resp.statusCode == 200 ==> (
      && resp.body.Listing?
      && resp.body.prompts == ListPrompts(store.items).value
      && NewestFirst(resp.body.prompts)
      && |resp.body.prompts| == |store.items|)
    ensures resp.statusCode != 200 ==>
      resp == Response(500, Failed(ListPrompts(store.items).message))
  {
    var items := store.LRange(0, -1);
    RangeWhole(store.items);
    match ListPrompts(items)
    case Ok(ps) =>
      resp := Response(200, Listing(ps));
    case Err(m) =>
      resp := Response(500, Failed(m));
  }

  /** POST: every body that parses to a non-null value is stored, whatever its fields
      hold: the record goes to the front of the list and the list is capped at 1000. */
  method Post(store: RedisList<Entry>, body: RequestBody, idTime: int, timestamp: int)
    returns (resp: Response)
    modifies store
    ensures body.Unparseable? ==>
      resp == Response(500, Failed(body.message)) && store.items == old(store.items)
    ensures body.NullJson? ==>
      resp == Response(500, Failed(NullBodyMessage)) && store.items == old(store.items)
    ensures body.Parsed? ==> (
      && resp.statusCode == 201
      && resp.body.Created? && resp.body.message.None? && resp.body.prompt.FromApi?
      && store.items == PushCapped(old(store.items), Serialized(resp.body.prompt))
      && |store.items| <= Capacity
      && store.items[1..] == old(store.items)[..|store.items| - 1])
    ensures body.Parsed? ==> ApiRecord(body.data, idTime, timestamp, resp.body.prompt.api)
  {
    match body
    case Unparseable(m) =>
      resp := Response(500, Failed(m));
    case NullJson =>
      resp := Response(500, Failed(NullBodyMessage));
    case Parsed(data) =>
      var p := BuildPrompt(data, idTime, timestamp);
      var entry := Serialized(FromApi(p));
      var _ := store.LPush(entry);
      store.LTrim(0, Capacity - 1);
      PushCappedShape(old(store.items), entry);
      resp := Response(201, Created(FromApi(p), None));
  }
}
