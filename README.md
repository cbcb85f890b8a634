# Kraken REST client — a Dafny model

This project models the deterministic core of `kraken.ts`, a small Node.js
client for the Kraken cryptocurrency exchange's REST API. It covers four things:

- **Method registry** (`registry.dfy`). Two fixed lists of method names, one
  tagged `public` and one `private`. A name is classified by a left fold
  (`reduce`) over the two lists and gets the class of the list that names it,
  or `undefined`.
- **Client factory and request builder** (`client.dfy`). `getApi` refuses to
  build a client when `API_KEY` or `API_SECRET` is undefined. It captures the
  chosen one-time password (OTP). The client function does the following:
  - rejects unknown method names;
  - builds the path `/0/{class}/{name}` and the URL;
  - merges the caller's parameters with `nonce` and, when set, `otp`;
  - builds the headers, adding `API-Sign` only for private methods.
- **Response envelope** (`transport.dfy`). After parsing, a non-empty `error`
  list becomes a failure. Its message is the `E`-prefixed entries with the
  `E` removed, joined by line breaks. When no entry has the `E` prefix, the
  message is a fixed "unknown error" text. An absent or empty list returns
  `result`.
- **Supporting modules**:
  - `objects.dfy` models a JavaScript plain object as its ordered property
    list: property access, `{...o, k: v}` and `{...a, ...b}`.
  - `text.dfy` models `join` together with a splitting function that undoes it.
  - `wrappers.dfy` holds `Option` (a value or `undefined`) and `Result`
    (a value or a thrown error message).

The model has no side effects. Every effect of the original is passed in as an argument:

- the clock reading in milliseconds (`nowMillis`);
- the environment (`Env`: `API_KEY`, `API_SECRET`, `OTP_KRAKEN`);
- the HMAC signer (`Signer`);
- the HTTP transport plus JSON parsing (`send`).

"No request is sent for an unknown method" is stated as follows: the call's
outcome is the same failure whatever `send` would answer.

Points where the model follows the code's exact behaviour:

- Credentials are refused only when `undefined`. An empty key or secret is accepted.
- `otp` is added when the chosen OTP is truthy, which means defined and
  non-empty. `otpParam` wins when it is truthy. Otherwise the environment's
  `OTP_KRAKEN` is used, even if it is falsy.
- The envelope is not treated as a tagged union. Both fields may be present.
  The error list is inspected first, and `result` is returned only when that
  list is absent or empty.
- The URL is `API_HOST + "/" + path`. The path already begins with a slash,
  so the URL contains `//0/`. The model keeps this as written.
- The client function's parameter is typed `PublicMethodName | PrivateMethodSet`
  (kraken.ts:114). At run time any string reaches `getMethodType`, so the model
  takes any string.

## Model

| member | source | states |
|---|---|---|
| `Registry.GetMethodTypeSpec` | kraken.ts:43-68 | a name classifies as public exactly when it is in the public list, as private exactly when it is in the private list, and as `undefined` exactly when it is in neither |
| `Registry.GetMethodType` | kraken.ts:58-68 | the fold over the registry seeded with `undefined`; its meaning is stated by `GetMethodTypeSpec` |
| `Registry.Reduce` | kraken.ts:59-67 | `reduce` from the left over the method sets; its meaning is stated by `ReduceYieldsListedClass` and `ReduceClassifies` |
| `Registry.ClassifyStep` | kraken.ts:60-66 | one reducer step: a set that lists the name gives its class, otherwise the accumulated class is kept; its meaning is stated by `ReduceYieldsListedClass` |
| `Registry.ReduceYieldsListedClass` | kraken.ts:58-67 | the fold either keeps its seed or yields the class of a set that lists the name; whenever some set lists the name, it yields such a class |
| `Registry.ReduceClassifies` | kraken.ts:58-67 | for sets that agree on a name, the fold seeded with `undefined` gives class `p` exactly when a set of class `p` lists the name, and `undefined` exactly when no set does |
| `Registry.ReduceOrderIrrelevant` | kraken.ts:43-67 | for sets that agree on a name, reordering the sets does not change the classification |
| `Registry.RegistryOrderIrrelevant` | kraken.ts:43-52 | listing the private set before the public one classifies every name the same way |
| `Registry.NameListsDisjoint` | kraken.ts:46-50 | no name is in both the public and the private list |
| `Registry.PublicListMatchesUnion` | kraken.ts:46 | the public list holds every member of the public name union (line 8) and nothing else, each name once |
| `Registry.PrivateListMatchesUnion` | kraken.ts:50 | the private list holds every member of the private name union (line 9) and nothing else, each name once |
| `Registry.PublicNamesDistinct` | kraken.ts:46 | no public method name is listed twice |
| `Registry.PrivateNamesDistinct` | kraken.ts:50 | no private method name is listed twice |
| `Objects.Put` | kraken.ts:122-132 | after `{...o, k: v}`, `k` reads `v` and every other property is unchanged; an existing `k` keeps its position, a new one goes last; distinct keys stay distinct |
| `Objects.Spread` | kraken.ts:140-144 | after `{...a, ...b}`, a property reads its value from `b` when `b` has it and from `a` otherwise; `a`'s keys stay first and in order |
| `Client.GetApi` | kraken.ts:105-112 | construction fails with the missing-credentials message exactly when the key or the secret is undefined; otherwise the client holds both and an OTP that is truthy exactly when `otpParam` or `OTP_KRAKEN` is, preferring `otpParam` |
| `Client.RequestBody` | kraken.ts:122-132 | `nonce` is the millisecond clock times 1000; `otp` is the client's OTP when that is truthy and the caller's value otherwise; every other caller parameter is unchanged and keeps its position; keys stay distinct |
| `Client.RequestHeaders` | kraken.ts:134-144 | the headers are `API-Key` = key, `User-Agent` = the fixed agent, and `API-Sign` = the signature of path, body and secret, present exactly for a private method, in that order |
| `Client.ChooseOtp` | kraken.ts:112 | the chosen OTP is truthy exactly when `otpParam` or the environment OTP is, and a truthy choice is one of the two |
| `Client.ApiPath` | kraken.ts:120 | the path starts with a slash and ends with the method name; the literal paths are stated by `PublicLocation` and `PrivateLocation` |
| `Client.InvalidMethod` | kraken.ts:117 | the invalid-method message starts with the offending method name |
| `Client.BuildRequest` | kraken.ts:114-146 | building fails exactly when the name is unknown, with `name + " is not a valid API method."`; a built request carries the body described by `RequestBody` and the 5000 ms timeout, and has `API-Sign` exactly when the method is private |
| `Client.Call` | kraken.ts:114-153 | an unknown name fails with the invalid-method message; a successful call built a request, the transport answered, the error list was absent or empty, and the result is that envelope's `result` |
| `Client.KnownMethodRequest` | kraken.ts:114-146 | a name of class `p` builds a request to `https://api.kraken.com//0/<class>/<name>` carrying the `RequestBody` body and the 5000 ms timeout; its headers are `API-Key` = key and the fixed `User-Agent`, then `API-Sign` = the signature of `/0/private/<name>` over that body exactly when the method is private, in that order |
| `Client.UnknownMethodRejected` | kraken.ts:115-118 | a name in neither list fails with `name + " is not a valid API method."` before any request exists, whatever the transport would answer |
| `Client.UrlOfPath` | kraken.ts:120-146 | for either class the URL is `https://api.kraken.com//0/<class>/<name>`: the host, a slash, and a path that begins with a slash |
| `Client.PublicLocation` | kraken.ts:120-146 | a public method's path is `/0/public/<name>` and its URL `https://api.kraken.com//0/public/<name>` |
| `Client.PrivateLocation` | kraken.ts:120-146 | a private method's path is `/0/private/<name>` and its URL `https://api.kraken.com//0/private/<name>` |
| `Client.PublicMethodRequest` | kraken.ts:114-146 | a public name yields a request to its URL with no `API-Sign` header and the 5000 ms timeout |
| `Client.PrivateMethodRequest` | kraken.ts:114-146 | a private name yields a request to its URL whose `API-Sign` is the signature of `/0/private/<name>` over the final body, `nonce` and `otp` included |
| `Client.KnownMethodSent` | kraken.ts:146-152 | for a known name the built request is sent; a transport failure comes back unchanged and otherwise the envelope decides the outcome |
| `Client.NonceFollowsClock` | kraken.ts:124 | two calls in the same millisecond carry the same nonce; a later millisecond gives a larger one |
| `Transport.ErrorEntries` | kraken.ts:91-92 | the kept entries are exactly the entries that start with `E`, and there are no more of them than entries |
| `Transport.ErrorEntriesAppend` | kraken.ts:91-92 | filtering distributes over concatenation, so the kept entries keep their original order |
| `Transport.ErrorEntriesSingle` | kraken.ts:92 | a single entry is kept exactly when it starts with `E` |
| `Transport.NoMessagesIffNoErrorEntry` | kraken.ts:91-95 | there are no error messages exactly when no entry starts with `E` |
| `Transport.ErrorMessages` | kraken.ts:91-93 | there are no more messages than entries, and each message with `E` put back in front is an entry of the error list; their order is stated by `ErrorEntriesAppend` |
| `Transport.Interpret` | kraken.ts:90-102 | the outcome is a success exactly when the error list is absent or empty, and a success returns `result` unchanged; a non-empty list without `E` entries fails with the unknown-error message |
| `Transport.FailureMessageLines` | kraken.ts:90-99 | with at least one `E` entry, the failure message splits at line breaks back into the `E` entries with their first character removed, in their order |
| `Transport.WarningsOnlyIsUnknownError` | kraken.ts:95-97 | a non-empty list with no `E` entry fails with `"Kraken API returned an unknown error"` |
| `Transport.GeneralErrorExample` | kraken.ts:90-99 | `["EGeneral:Invalid arguments"]` fails with `"General:Invalid arguments"` |
| `Transport.EmptyErrorListExample` | kraken.ts:90-102 | an empty error list resolves with the result |
| `Transport.WarningExample` | kraken.ts:95-97 | `["WSomething"]` fails with the unknown-error message |
| `Transport.BareSigilExample` | kraken.ts:91-99 | a lone `"E"` entry fails with an empty message, not with the unknown-error message |
| `Text.Join` | kraken.ts:99 | `join`; `SplitJoin` states that splitting undoes it |
| `Text.SplitJoin` | kraken.ts:99 | joining parts that contain no line break with `"\n"` loses nothing: splitting gives the parts back |

## Left out

- The HTTP POST through `got`, its timeout handling and `JSON.parse` (kraken.ts:80-88) are network I/O and library calls. They are the `send` argument of `Client.Call`, whose failures propagate unchanged.
- `getFullBodySignature` (kraken.ts:70-76) is HMAC-SHA-512 over a SHA-256 digest, from a foreign crypto library. It is the `Signer` argument, a function of path, final body and secret. A failure inside the crypto library is not modelled.
- `qs.stringify` (kraken.ts:71, 84) is a foreign form encoder. The body is kept as its ordered property list and never serialised.
- `Date.now()` (kraken.ts:124) is ambient time. It is the `nowMillis` argument. The model does not bound the clock and computes `nowMillis * 1000` exactly. JavaScript rounds the product once `nowMillis` exceeds about 9.0e12 ms, since the product then passes 2^53.
- `dotenv` and `process.env` (kraken.ts:1, 106-107, 112) are ambient configuration. They are the `Env` argument.
- `async`/`await` and the `catch (e) { throw e; }` around `makeRequest` (kraken.ts:148-152) have no behaviour of their own.
- `isPublicMethodSet` (kraken.ts:54-56) only narrows a static type. The reducer's two branches (kraken.ts:60-66) are identical, so `Registry.ClassifyStep` has a single branch.
- Body values are strings and integers only. Floating-point numbers, `undefined`, arrays and nested objects among the caller's parameters are not modelled.
- `Objects.Put`: a new property always goes last. JavaScript places integer-like property names first, in ascending order; that ordering is not modelled.
- `Client.RequestBody` and `Client.BuildRequest` require distinct parameter names. This holds of every JavaScript object, so it does not exclude any input the source accepts.
- The default `methodParams = {}` is the empty list passed explicitly.
- Strings are sequences of characters. `substr(1)` is modelled as dropping one character, not one UTF-16 code unit.
- Transport.FailureMessageLines: it states the lines of the failure message only when no entry contains a line break, because otherwise the joined message cannot be split back into its entries.
