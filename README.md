# Prompt marketplace handlers, modelled in Dafny

Two serverless handlers serve `/prompts` for a prompt marketplace. They share one Redis
list, `prompts`, that holds every submitted prompt record as JSON text, newest first.

- `netlify/functions/prompts.js` builds a record from the POST body and trims its text
  fields. It fills in defaults and derives the price. It then runs six checks in a fixed
  order: name, AI targets, description, content, minimum paid price, seller contact.
  If all pass, it runs `LPUSH` and then `LTRIM 0 999`.
- `api/prompts.js` builds a looser record with no checks at all. When a paid prompt
  comes with ciphertext, it replaces the prompt text with `[ENCRYPTED]`. It then runs
  the same push and trim.
- GET in both reads the whole list (`LRANGE 0 -1`) and parses every element. It then
  sorts by `timestamp`, newest first. One element that does not parse fails the request.

The model has one module per concern:

- `Js` (js.dfy): the JavaScript semantics the handlers rely on. This covers values of a
  parsed body, truthiness, `trim`, `String(x)` and `parseInt` without a radix.
- `Records` (records.dfy): the body, the two record shapes, list entries and responses.
- `ListStore` (list_store.dfy): the Redis list as a class over a `seq`. It offers
  LPUSH, LTRIM and LRANGE with Redis's inclusive, negative-from-the-end indexes.
- `Listing` (listing.dfy): parse-all and the stable newest-first sort shared by both GETs.
- `NetlifyPrompts` (netlify_prompts.dfy) and `ApiPrompts` (api_prompts.dfy): the handlers.
- `Results` (results.dfy): `Option` and `Result`. A thrown exception is `Err(message)`.

`Date.now()` and `Math.random()` are parameters. The handlers read the clock twice, once
for the id and once for `timestamp`, so these are two parameters.

What the handlers do, and so what the model does:

- A failed netlify check is thrown and caught by the handler's `catch`, so it answers
  500 with that one message.
- A list element that fails to parse makes the whole GET answer 500.
- There are no length rules and no upper price bound, and no text sanitisation or spam
  detection. The api handler validates nothing.
- The api handler stores a paid prompt that has no `encryptedPrompt` with its plaintext.

## Model

| member | source | states |
|---|---|---|
| `Js.Trim` | netlify/functions/prompts.js:46-55 | `trim` leaves no whitespace at either end, and gives "" exactly when the input is all whitespace |
| `Js.TrimSplit` | netlify/functions/prompts.js:46-55 | what `trim` keeps is a contiguous piece of the input, and everything cut before and after it is whitespace |
| `Js.TrimIdempotent` | netlify/functions/prompts.js:46-55 | trimming twice is the same as trimming once |
| `Js.TrimTight` | netlify/functions/prompts.js:46-55 | a string with no whitespace at its ends is left unchanged by `trim` |
| `Js.DigitRun` | netlify/functions/prompts.js:54 | `parseInt` reads the longest run of digits: all of them are digits, and the next character is not |
| `Js.ParseIntNumeral` | netlify/functions/prompts.js:54 | `parseInt` reads the decimal numeral of any integer, with its minus sign, back as that integer |
| `Js.ParseDigits` | netlify/functions/prompts.js:54 | the unsigned part of `parseInt` yields a number only when the text starts with a decimal digit, and always does when it starts with 1-9 |
| `Js.ParseIntString` | netlify/functions/prompts.js:54 | after leading whitespace, a number needs a digit, or one sign and then a digit; a negative result needs a minus sign; text starting with 1-9 gives a non-negative number |
| `Js.ParseInt` | netlify/functions/prompts.js:54 | `parseInt(n)` gives back `n` for every integer number `n`; a string is parsed as it is; `undefined`, `null`, booleans, objects and `[]` give NaN |
| `Js.ToStr` | netlify/functions/prompts.js:54 | `String(x)` of a string is the string; of a number, a numeral that `parseInt` reads back as the number; of `[]`, the empty string |
| `Js.Or` | api/prompts.js:44-49 | `v \|\| d` is `v` when `v` is truthy and `d` otherwise, and it is truthy iff `v` or `d` is |
| `ListStore.Range` | netlify/functions/prompts.js:84 | the range LTRIM keeps and LRANGE reads is never longer than the list |
| `ListStore.RangeWhole` | netlify/functions/prompts.js:29 | `LRANGE prompts 0 -1` reads the whole list |
| `ListStore.RangePrefix` | netlify/functions/prompts.js:84 | `LTRIM prompts 0 n` keeps the first n + 1 elements, or all of them if there are fewer |
| `ListStore.PushCapped` | netlify/functions/prompts.js:83-84 | after push and trim, the new record is first and the list has one more element, up to 1000 |
| `ListStore.PushCappedShape` | netlify/functions/prompts.js:83-84 | after push and trim, the old front follows the new record; a full list loses exactly its last, oldest element |
| `ListStore.PushAllKeepsNewest` | api/prompts.js:62-63 | after one or more creates, the list is all pushed records newest first, then the original list, cut to 1000, and holds at most 1000. Eviction is always of the oldest |
| `ListStore.RedisList.LPush` | netlify/functions/prompts.js:83 | LPUSH puts the record in front of the old list and answers the new length |
| `ListStore.RedisList.LTrim` | netlify/functions/prompts.js:84 | LTRIM replaces the list by the selected range |
| `ListStore.RedisList.LRange` | api/prompts.js:22 | LRANGE returns the selected range and changes nothing |
| `Records.Parse` | netlify/functions/prompts.js:30 | `JSON.parse` of a list element succeeds iff the element was written from a record, and gives that record back; otherwise it fails with the parser's message |
| `Listing.ParseAll` | netlify/functions/prompts.js:30 | succeeds iff every element parses, giving each element's record in order. Otherwise it fails with the message of the first element that does not parse |
| `Listing.Insert` | netlify/functions/prompts.js:31 | inserting into a newest-first list keeps it newest first and adds exactly the one record |
| `Listing.SortNewestFirst` | netlify/functions/prompts.js:31 | the sort's result is newest first (timestamps never increase) and is a permutation of its input |
| `Listing.SortStable` | netlify/functions/prompts.js:31 | the sort is stable: records with equal timestamps keep their list order |
| `Listing.ListPrompts` | api/prompts.js:22-23 | GET's list is a permutation of the parsed stored records, newest first, with as many elements as the list. Any unparseable element fails the whole read with the first such element's message |
| `Listing.NewestPushListedFirst` | netlify/functions/prompts.js:29-31 | after a create, a record at least as new as every stored one is listed first |
| `NetlifyPrompts.TextOr` | netlify/functions/prompts.js:46-55 | `x?.trim() \|\| d` gives `d` when `x` is absent, null or blank. Otherwise it gives the trimmed text, which is non-empty |
| `NetlifyPrompts.Substr` | netlify/functions/prompts.js:45 | `substr(start, length)` gives the characters of the string from `start` on, at most `length` of them and as many as remain, and nothing when `start` is past the end |
| `NetlifyPrompts.PromptId` | netlify/functions/prompts.js:45 | the id starts with `prompt-` |
| `NetlifyPrompts.PriceOf` | netlify/functions/prompts.js:54 | price is 0 unless `priceType` is `'paid'`. For paid it is `parseInt(price)`, or 0 when that is NaN |
| `NetlifyPrompts.BuildPrompt` | netlify/functions/prompts.js:44-61 | a TypeError occurs iff a trimmed property is neither nullish nor a string, and names the first such property. Otherwise each field takes its default or trimmed value, with rating 0, ratingCount 0, no comments and status `approved` |
| `NetlifyPrompts.StoredTextIsTrimmed` | netlify/functions/prompts.js:46-55 | every stored text field has no whitespace at its ends, and the creator is never empty |
| `NetlifyPrompts.Validate` | netlify/functions/prompts.js:63-81 | no error iff all six checks pass; otherwise the message of the first check, in chain order, that fails |
| `NetlifyPrompts.RuleMessagesDistinct` | netlify/functions/prompts.js:64-81 | the six messages differ, so a message identifies its check |
| `NetlifyPrompts.Create` | netlify/functions/prompts.js:42-81 | a parse error, a null body or a TypeError is reported as it is. A built record is accepted iff all checks pass, and an accepted record is the built one. A rejected record fails with the message of the first check it fails |
| `NetlifyPrompts.EmptyNameComesFirst` | netlify/functions/prompts.js:46-66 | in a body whose trimmed properties are strings or absent, a blank name yields `Nama prompt diperlukan` whatever else is wrong (a non-string trimmed property throws its TypeError first) |
| `NetlifyPrompts.ContentRule` | netlify/functions/prompts.js:73-75 | the content check passes iff the trimmed prompt is non-empty or `encryptedPrompt` is truthy |
| `NetlifyPrompts.PriceRule` | netlify/functions/prompts.js:54-78 | for a paid price `n`, the record's price is `n` and the price check passes iff `n >= 1000`, with no upper bound. A free prompt has price 0 and passes |
| `NetlifyPrompts.PaidNeedsContact` | netlify/functions/prompts.js:79-81 | every paid body with a blank seller contact is rejected, whatever else it holds |
| `NetlifyPrompts.ErrorText` | netlify/functions/prompts.js:110 | the 500 error text is the message, or `Internal server error` when the message is empty |
| `NetlifyPrompts.Get` | netlify/functions/prompts.js:28-38 | 200 iff every element parses, with the sorted listing. Otherwise 500 with the first parse error's message |
| `NetlifyPrompts.PushRecord` | netlify/functions/prompts.js:83-84 | `lpush` then `ltrim 0 999` leave the capped push of the record: it is first, the old front follows, and the list holds at most 1000 |
| `NetlifyPrompts.Post` | netlify/functions/prompts.js:41-95 | an accepted record answers 201 and the list becomes the capped push of it. Any failure answers 500 and leaves the list unchanged |
| `ApiPrompts.PromptId` | api/prompts.js:42 | the id starts with `prompt-` |
| `ApiPrompts.PromptIdInjective` | api/prompts.js:42 | two ids are equal iff their clock readings are: ids collide exactly for records created in the same millisecond |
| `ApiPrompts.BuildPrompt` | api/prompts.js:41-60 | defaults for falsy `ai`, `description`, `creator`, `priceType` and `price`; rating 0, ratingCount 0, status `approved`. A paid prompt with ciphertext gets `[ENCRYPTED]`, the ciphertext and the seller contact (or ""). Any other prompt keeps its text and has neither extra field |
| `ApiPrompts.Get` | api/prompts.js:20-35 | 200 iff every element parses, with the sorted listing. Otherwise 500 with the message as it is |
| `ApiPrompts.Post` | api/prompts.js:38-76 | every body that parses to a non-null value answers 201 and is stored by the capped push, as the record with every default, fixed field and paid-content rewrite of `BuildPrompt`. An unparseable or null body answers 500 and leaves the list unchanged |

## Left out

- Redis client construction and its environment variables (netlify/functions/prompts.js:1-6, api/prompts.js:5-8). These are foreign network calls. The list commands always succeed here, so a Redis failure turning into a 500 is not modelled.
- CORS headers, the OPTIONS preflight and the 405 answer. These are HTTP routing with no logic of the prompt store.
- `Date.now()` and `Math.random()`: their readings are parameters. The model makes no claim that ids are unique; the api id `prompt-${Date.now()}` repeats within a millisecond.
- JSON text: a list element is a record or an element that fails to parse with a given message. A request body is a parse error, `null`, or the properties the handlers read. The model assumes `LRANGE` returns the exact text `LPUSH` stored, so that the Redis client library does not deserialise replies on its own; the client library is not part of this model.
- The two list commands are not atomic against concurrent requests. This is concurrency on an external service.
- Numbers are unbounded integers. Fractions, `-0`, exponent notation and the rounding of large `parseInt` results are not modelled.
- Objects whose own properties shadow `toString` or `trim` are not modelled.
- The `details: error.stack` of the netlify 500 body and the `console.error` log line.
- A TypeError's message is modelled as a fixed string that names the property. The engine's exact wording is not part of this model.
- Comments, rating recomputation, text sanitisation, spam detection and a price ceiling. No handler here implements them.
