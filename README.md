# Ghanaian name generator: catalogue selectors and the name-generation route

This project models two parts of a small web application that suggests Ghanaian names.

- **The name catalogue** (`lib/ghanaian-names.ts`) is a fixed table of records. Each record has a name, a meaning, a tribe and a gender. Three selectors read the table:
  - by gender;
  - by tribe, ignoring letter case;
  - a random pick, optionally restricted to one gender.

  The table is modelled as a sequence. It keeps its repeated rows: each of the seven Akan female day-name rows appears three times, "Kufuor" appears twice, and nine rows share the name "Adjei".
- **The POST handler of `/api/generate-name`** (`app/api/generate-name/route.ts`) turns a free-text context into a name suggestion by asking a chat-completion service. The handler is modelled as a pure decision function. Its inputs are:
  - the parsed request body;
  - the configured API key;
  - what the single outbound fetch produced;
  - what `JSON.parse` makes of the returned content.

  Its result is the response status and JSON body, together with the chat-completion call it issued, if any.

Files:

- `wrappers.dfy`: `Option`.
- `sequences.dfy`: an order-preserving `Filter` (JavaScript's `Array.prototype.filter`), the subsequence relation and occurrence counts, and the proof that these pin the filter down uniquely.
- `text.dfy`: ASCII lower-casing, substring occurrences, and a last-index search used by the occurrence proofs.
- `js_values.dfy`: JSON values, JavaScript truthiness, and property reads that yield a value, `undefined`, or a thrown TypeError (`a.b`, `a?.b`, `a[0]`).
- `ghanaian_names.dfy`: the catalogue and its selectors.
- `generate_name.dfy`: the route handler, its prompt and its outbound request.

Notes on the route model:

- `Post` returns the issued call as a `ChatRequest` (the context and the key). `ChatCall` gives that call's wire form: URL, method, headers and JSON body.
- The handler's nested `try`/`catch` is modelled as follows:
  - a failure before the inner `try` is a 500 with "Failed to generate name";
  - any failure inside the inner `try` gives 200 with the fixed Akosua record;
  - the outer `catch` is reached by an unreadable request body, a `null` body (its destructuring throws), a network error, a non-ok reply, an unreadable reply, a falsy first-choice content, and a reply whose `choices` is `null` or missing (so that reading `choices[0]` throws).

## Model

| member | source | states |
|---|---|---|
| Sequences.Filter | lib/ghanaian-names.ts:134 | The result is a subsequence of the input and no longer than it. Every element satisfying the predicate occurs in it exactly as often as in the input; no other element occurs. Membership holds iff the element is in the input and satisfies the predicate. |
| Sequences.SubsequenceCount | lib/ghanaian-names.ts:138 | A subsequence holds no element more often than the sequence it is taken from. |
| Sequences.FilterUnique | lib/ghanaian-names.ts:138 | Any subsequence with the filter's multiplicities is the filter's result, so "in table order, duplicates kept" determines the result. |
| Text.LowerChar | lib/ghanaian-names.ts:134 | An upper-case ASCII letter maps to its lower-case letter (code + 32); every other character is unchanged; the result is never upper-case. |
| Text.ToLower | lib/ghanaian-names.ts:134 | `toLowerCase` on ASCII: the length is kept, each upper-case letter becomes the letter 32 code points later, every other character is kept, and no upper-case letter remains. |
| JsValues.Get | app/api/generate-name/route.ts:5 | `a.key`: throws exactly when `a` threw or is `undefined`/`null`; yields a value exactly when `a` is an object holding the key, and that value is the field. |
| JsValues.OptGet | app/api/generate-name/route.ts:61 | `a?.key`: throws only when `a` itself threw; on `undefined` or `null` it is `undefined`; on any other value it is the plain read. |
| JsValues.First | app/api/generate-name/route.ts:61 | `a[0]`: throws exactly when `a` threw or is `undefined`/`null`. On an array it is the first element, or `undefined` when the array is empty; on a string, its first character; on an object, the field "0"; on a boolean or number, `undefined`. |
| GhanaianNames.Catalogue | lib/ghanaian-names.ts:8-120 | The table, in source order with its repeated rows, has 98 rows. |
| GhanaianNames.NamesByGender | lib/ghanaian-names.ts:137-139 | Exactly the table rows of the gender, as a subsequence of the table (so no longer than it), each row as often as in the table. Membership holds iff the row is in the table with that gender. |
| GhanaianNames.NamesByGenderExactly | lib/ghanaian-names.ts:137-139 | Any subsequence of the table holding the rows of that gender with their table multiplicities equals getNamesByGender's result: order and duplicates are those of the table. |
| GhanaianNames.NamesByTribe | lib/ghanaian-names.ts:133-135 | Exactly the rows whose lower-cased tribe equals the lower-cased argument, as a subsequence of the table with table multiplicities. Membership holds iff that is so. |
| GhanaianNames.NamesByTribeIgnoresCase | lib/ghanaian-names.ts:133-135 | Two tribe arguments that agree after lower-casing give the same result. |
| GhanaianNames.AkanSpellings | lib/ghanaian-names.ts:133-135 | "akan", "Akan" and "AKAN" give the same result, and it contains the table's first row, Kwame. |
| GhanaianNames.Candidates | lib/ghanaian-names.ts:122-127 | The candidate list is never empty (the table has male and female rows). It is a subsequence of the table; each row the gender choice admits occurs in it exactly as often as in the table, and no other row occurs. With a gender it is getNamesByGender's result. |
| GhanaianNames.RandomIndex | lib/ghanaian-names.ts:129 | For 0 <= r < 1, `floor(r * length)` lies in `[0, length)` when the list is non-empty. |
| GhanaianNames.RandomName | lib/ghanaian-names.ts:122-131 | The record is a table row. With a gender, the index lies inside getNamesByGender's result and the record is that result's entry at the index, so it has that gender. With 'any', it is the table row at the chosen index. |
| GhanaianNames.RandomIndexInCandidates | lib/ghanaian-names.ts:129-130 | Every random number in [0, 1) gives an index inside the candidate list, so the lookup is defined. |
| GhanaianNames.RandomNameIgnoresLastName | lib/ghanaian-names.ts:122-131 | The same gender choice and index give the same record for any last name. |
| GhanaianNames.RandomIndexReaches | lib/ghanaian-names.ts:129 | For k < length, the number k/length lies in [0, 1) and selects index k. |
| GhanaianNames.EveryElementReachable | lib/ghanaian-names.ts:129-130 | Each element of a list is picked by some random number in [0, 1). |
| GhanaianNames.EveryAdmittedRowReachable | lib/ghanaian-names.ts:122-131 | Every table row that the gender choice admits is returned for some random number in [0, 1). |
| GhanaianNames.EveryCatalogueIndexReachable | lib/ghanaian-names.ts:122-131 | With 'any', every index of the table is selected by some random number, and the table row there is returned. |
| GenerateNameRoute.Instruction | app/api/generate-name/route.ts:22 | The prompt's first sentence has no double quote. |
| GenerateNameRoute.Guidance | app/api/generate-name/route.ts:22-23 | The sentence on naming practices and the blank line after it contain no double quote, and the text ends with a newline. |
| GenerateNameRoute.ReplyRequest | app/api/generate-name/route.ts:25-26 | The request for a JSON object has no capital C. |
| GenerateNameRoute.NameField | app/api/generate-name/route.ts:27 | The "name" line has no capital C. |
| GenerateNameRoute.MeaningField | app/api/generate-name/route.ts:28 | The "meaning" line has no capital C. |
| GenerateNameRoute.ExplanationField | app/api/generate-name/route.ts:29-30 | The "explanation" line has no capital C. |
| GenerateNameRoute.Closing | app/api/generate-name/route.ts:31 | The closing sentence has no capital C. |
| GenerateNameRoute.Preamble | app/api/generate-name/route.ts:22-23 | The prompt text before the context line has no double quote and ends with a newline. |
| GenerateNameRoute.Postscript | app/api/generate-name/route.ts:25-31 | The prompt text after the context line has no capital C. |
| GenerateNameRoute.Prompt | app/api/generate-name/route.ts:22-31 | `Context: "` + context + `"` occurs in the prompt exactly once, right after the preamble, with the context verbatim, whatever the context holds; the length is preamble + context + 11 + postscript. |
| GenerateNameRoute.Quoting | app/api/generate-name/route.ts:24 | Between a quote-free text ending in a newline and a text without a capital C: the context line occurs exactly once, and the context sits verbatim at offset 10 of it. |
| GenerateNameRoute.NeedleOnlyBetween | app/api/generate-name/route.ts:22-31 | Under those conditions on the surrounding text, the set of positions of the quoted context line is the single position where it was placed. |
| GenerateNameRoute.NoNeedleInside | app/api/generate-name/route.ts:22-24 | No occurrence starts inside the quote-free text before the context line. |
| GenerateNameRoute.NoNeedleAfter | app/api/generate-name/route.ts:24-31 | No occurrence starts after the place of the context line when the rest has no capital C. |
| GenerateNameRoute.ChatBody | app/api/generate-name/route.ts:39-53 | The body names model gpt-3.5-turbo, max_tokens 300 and the temperature, and has exactly two messages: first the system message with the persona, then the user message with the prompt. |
| GenerateNameRoute.Bearer | app/api/generate-name/route.ts:36 | The authorisation header is the seven characters `Bearer ` followed by the key, verbatim. |
| GenerateNameRoute.ChatCall | app/api/generate-name/route.ts:33-39 | The call is a POST to the chat-completion URL with a JSON content type. Its authorisation is `Bearer ` then the key. Its user message's content is a string in which the quoted context line occurs exactly once, right after the preamble. |
| GenerateNameRoute.IssuedCall | app/api/generate-name/route.ts:3-54 | The call the handler issues authorises with the configured key and sends a user prompt in which the request's own context occurs quoted exactly once, right after the preamble. |
| GenerateNameRoute.Content | app/api/generate-name/route.ts:61 | `data.choices[0]?.message?.content` throws exactly when the reply is `null` or its `choices` is missing or `null`. When `choices` is a non-empty array, it is the optional read of message and content on the first choice. |
| GenerateNameRoute.Fallback | app/api/generate-name/route.ts:76-80 | The fixed record has truthy name, meaning and explanation: Akosua, "Born on Sunday", and the fixed explanation. |
| GenerateNameRoute.HasNameFields | app/api/generate-name/route.ts:70 | A value passing the check is an object holding the three keys name, meaning and explanation. |
| GenerateNameRoute.ValidContext | app/api/generate-name/route.ts:7 | A context passes exactly when it is truthy and a string. |
| GenerateNameRoute.Configured | app/api/generate-name/route.ts:14-15 | A key passes exactly when it is set and truthy as a string. |
| GenerateNameRoute.AfterFetch | app/api/generate-name/route.ts:56-87 | After the fetch, a 200 always carries truthy name, meaning and explanation. Every other outcome is the 500 with "Failed to generate name". |
| GenerateNameRoute.Screen | app/api/generate-name/route.ts:4-20 | The handler goes on to the fetch exactly when the body was read, its context is a non-empty string and the key is set. Otherwise it answers with a 500 generic failure, the 400 "Context is required", or the 500 "OpenAI API key not configured". |
| GenerateNameRoute.Post | app/api/generate-name/route.ts:3-89 | The status is 200, 400 or 500. A 200 carries truthy name, meaning and explanation; a 400 is the context error; a 500 is the key error or the generic failure. A call is issued exactly when the context is valid and the key is set, and it carries that context and key. With a call, the response is the post-fetch outcome; without one, it is the answer of the checks before the fetch. |
| GenerateNameRoute.ContextCheckedFirst | app/api/generate-name/route.ts:5-12 | A readable, non-null body whose context is missing, empty or not a string gets the 400 "Context is required", whatever the key and upstream, and no call is issued. |
| GenerateNameRoute.KeyCheckedBeforeFetch | app/api/generate-name/route.ts:14-20 | With a valid context and a missing or empty key, the answer is 500 "OpenAI API key not configured" and no call is issued. |
| GenerateNameRoute.UnreadableRequest | app/api/generate-name/route.ts:3-12 | A body that cannot be read, or a `null` body, gives the 500 "Failed to generate name" and no call. |
| GenerateNameRoute.UpstreamFailure | app/api/generate-name/route.ts:56-87 | A network error, a non-ok status, an unreadable reply or a falsy content gives the 500 "Failed to generate name". |
| GenerateNameRoute.StatusNotPassedThrough | app/api/generate-name/route.ts:56-87 | Two non-ok replies give the same response, whatever their status codes and payloads. |
| GenerateNameRoute.ParsedContentReturned | app/api/generate-name/route.ts:67-74 | Content that parses to a value with truthy name, meaning and explanation is returned unchanged with status 200, extra fields included. |
| GenerateNameRoute.FallbackOnUnusableContent | app/api/generate-name/route.ts:70-80 | Content that does not parse, or lacks a truthy field, gives 200 with the fixed Akosua record, never an error. |
| GenerateNameRoute.SuccessExactly | app/api/generate-name/route.ts:3-89 | The status is 200 exactly when all of these hold: the context is valid, the key is set, the fetch returned an ok and readable reply, and that reply carries a truthy first-choice content. |

## Left out

- `Math.random()` is not modelled. `getRandomName` takes the index it would select, and `RandomIndex` relates that index to a real number in [0, 1). Floating-point rounding of `random * length` is not modelled: it is exact real arithmetic.
- NaN and IEEE doubles are not modelled. JSON numbers are reals, and truthiness treats only 0 as a falsy number.
- `temperature: 0.7` appears only as an opaque constant.
- `toLowerCase` is modelled only for the ASCII letters A-Z. Full Unicode case mapping is not modelled.
- `fetch` is not modelled; `request.json()`, `response.json()` and `JSON.parse` are not implemented either. Each is an input to the model:
  - the parsed request body, or None when it rejects;
  - the upstream outcome;
  - a parse function from the content to an optional value.
- `JSON.parse` receives the content value directly. Its conversion of a non-string content to a string is inside that parse function.
- `JSON.stringify` of the outbound body is not modelled. The body is the JSON value before serialisation.
- The `Request`/`NextResponse` objects and the HTTP headers of the reply are not modelled. A response is its status and JSON body.
- `console.error` in the outer catch is not modelled: logging has no effect on the result.
- The text of the error thrown inside the handler is not modelled: it is never returned.
- Property reads of the keys the handler uses are modelled on JSON objects only. Strings, numbers, booleans and arrays yield `undefined` for those keys, and so do inherited prototype properties. Getters and proxies cannot arise from parsed JSON.
- The React UI (`components/ghanaian-name-generator.tsx`, `app/page.tsx`) is not part of this model. It is presentation and client state.
- The transcription route (`app/api/transcribe/route.ts`) is not part of this model. It only forwards to a speech-to-text service.
- GenerateNameRoute.Prompt: its contract states the single occurrence and the length. That the context sits verbatim at offset 10 of that occurrence follows from the occurrence itself and is stated by GenerateNameRoute.Quoting.
