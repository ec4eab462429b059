# Citizen Hub service core in Dafny

This project models the service layer of Citizen Hub. Citizen Hub is a small public-service
backend. A citizen logs in with an email and receives a session token. With the
token they can file document applications (Aadhaar, PAN, driving licence, voter ID,
passport), start mock payments and list their own applications. Anyone can read the five
static "how to apply" guides and run a predictive search over a fixed catalog of five
service entries.

The model replaces the document store with an in-memory `Store` class. The class holds the
`user`, `session`, `application` and `payment` collections and an identifier counter.
The wall-clock time (an integer count of seconds) and the session token are parameters.
Each module follows one part of the source:

- `schemas.dfy` (`Schemas`): the Pydantic records of `schemas.py` as datatypes. Each
  record has its field constraints as a validity predicate and a constructing function.
  That function fills in the declared defaults and returns `InvalidInput(field)` where
  Pydantic would raise.
- `search.dfy` (`Search`): the search catalog, the inclusion rule, `predictive_search`
  and its properties.
- `guides.dfy` (`Guides`): the guide table and `get_guide`.
- `auth.dfy` (`Auth`): the user document inserted at login, the login session, and the
  token check `awaitable_get_user`.
- `service.dfy` (`Service`): the store class with `login`, `create_application`,
  `list_applications` and `init_payment`, plus the listing query and its properties.
- The literal data are constants: `Search.Catalog` holds `SEARCH_ITEMS`
  (main.py:118-124) and `Guides.GuideTable` holds `GUIDES` (main.py:137-213).
- `outcomes.dfy`, `seqs.dfy` and `text.dfy` are support modules. They hold the result and
  error types, sequence facts (prefix, ordered subsequence, no repeats) and the ASCII
  versions of Python's `lower`, `strip`, `startswith`, `in` and `join`.

Modelling choices:

- Authentication takes the first matching live session in insertion order. The source's
  `find_one` makes no ordering promise.
- The application listing keeps the first 50 of the caller's records in insertion order.
  `get_documents` makes no ordering promise either.
- The store hands out identifiers from a counter. Their string form is lower-case
  hexadecimal, and distinct identifiers are proved to have distinct strings. The real
  ObjectId layout is not modelled.
- Python's `x or default` treats `None` and `""` alike. So an empty name becomes
  `"Citizen"` and an empty language becomes `"en"`, as in the code.
- `login` writes the user document directly, not through the `User` schema. So the
  language enum {en, hi} is not enforced there: a login asking for `"fr"` stores `"fr"`.
  The model keeps this behaviour, and `Auth.LoginSkipsLanguageCheck` shows it.
- A schema violation inside a handler would reach the HTTP client as a server error, not
  a 422. The model returns `InvalidInput` and does not model HTTP status codes. Nothing is
  written in either case.
- Where several fields of one record are invalid, the first invalid field in declaration
  order is the one reported.

## Model

| member | source | states |
|---|---|---|
| `Outcomes.OrDefault` | main.py:73 | Python's `or` on an optional string: the value when it is present and non-empty, otherwise the default |
| `Text.Lower` | main.py:128 | `lower()` on ASCII: same length, and each character is mapped to its lower-case form |
| `Text.Strip` | main.py:128 | `strip()`: the result neither starts nor ends with whitespace, and it is empty exactly when the input is all whitespace |
| `Text.StripIsSlice` | main.py:128 | what `strip()` keeps is a contiguous slice of the input with only whitespace before and after it |
| `Text.SubstringIff` | main.py:132 | the recursive `in` test holds exactly when some slice of the text equals the query |
| `Text.IsSubstring` | main.py:132 | `ql in hay`: the query is a prefix of the text or of some suffix of it |
| `Text.IsPrefix` | main.py:132 | `k.startswith(ql)`: the query is no longer than `k` and equals its leading slice |
| `Text.NotSubstringOfAvoiding` | main.py:132 | a non-empty query whose first character occurs nowhere in the text is not `in` it |
| `Text.Join` | main.py:131 | `" ".join(parts)`: the parts in order with the separator between neighbours |
| `Seqs.Take` | main.py:134 | the `[:n]` slice: the first `min(n, len)` elements, unchanged and in order |
| `Schemas.MakeUser` | schemas.py:10-14 | succeeds iff the language is omitted or in {en, hi}; the language defaults to `en` and `is_active` to true; the result is a valid user |
| `Schemas.ValidUser` | schemas.py:10-14 | the `User` constraint: `preferred_language` is `en` or `hi` |
| `Schemas.UserRoundTrip` | schemas.py:10-14 | rebuilding a user from its own fields gives it back when valid and a `preferred_language` error otherwise |
| `Schemas.MakeApplication` | schemas.py:21-26 | succeeds iff `doc_type` is in the five document types and any given status is in the five statuses; an invalid `doc_type` is reported first; status defaults to `draft`, `reference_id` to none and `metadata` to the empty mapping |
| `Schemas.ValidApplication` | schemas.py:21-26 | the `Application` constraints: `doc_type` is one of the five document types and `status` one of the five statuses |
| `Schemas.ApplicationRoundTrip` | schemas.py:21-26 | an application is valid iff rebuilding it from its fields succeeds, and then the rebuild is the application itself |
| `Schemas.MakePayment` | schemas.py:28-35 | succeeds iff `amount >= 0` and any given currency or status is allowed; a negative amount gives `InvalidInput("amount")`; currency is always `INR`, status defaults to `initiated`, and the optional references are kept |
| `Schemas.ValidPayment` | schemas.py:28-35 | the `Payment` constraints: `amount >= 0`, currency `INR`, and `status` one of the four payment statuses |
| `Schemas.PaymentRoundTrip` | schemas.py:28-35 | a payment is valid iff rebuilding it from its fields succeeds, and then the rebuild is the payment itself |
| `Schemas.MakeSearchItem` | schemas.py:38-43 | keeps the given fields; keywords default to the empty sequence |
| `Search.Normalize` | main.py:128 | the compared query `q.lower().strip()`: lower-cased first, then stripped |
| `Search.Haystack` | main.py:131 | the searched text: label, category and keywords joined by single spaces, then lower-cased; neither key nor url is part of it |
| `Search.PrefixTargets` | main.py:132 | the strings the query may start: the key, then each keyword, not lower-cased |
| `Search.Matches` | main.py:131-132 | an item is included iff the normalised query is in its haystack or starts its key or one of its keywords |
| `Search.Filter` | main.py:129-133 | the matching items in catalog order; never more items than it was given |
| `Search.SearchResults` | main.py:128-134 | the search result: the first eight of the items matching the normalised query |
| `Search.PredictiveSearch` | main.py:126-134 | the results are the first eight matches; there are at most eight; an item is returned iff it is in the catalog and matches the normalised query; the results are an ordered subsequence of the catalog with no repeats |
| `Search.CollectMatches` | main.py:129-133 | the loop keeps exactly the matching items, in their order |
| `Search.FilterMembers` | main.py:130-133 | an item is kept iff it is among the inputs and matches |
| `Search.FilterSubsequence` | main.py:129-133 | the kept items are an ordered subsequence of the items given |
| `Search.FilterAll` | main.py:129-133 | when every item matches, every item is kept, in order |
| `Search.FilterNone` | main.py:129-133 | when no item matches, nothing is kept |
| `Search.CatalogDistinct` | main.py:118-124 | the five catalog items are pairwise distinct |
| `Search.SearchResultsProperties` | main.py:128-134 | at most eight results, exactly the matching catalog items, in catalog order, with no repeats |
| `Search.BlankQueryMatchesAll` | main.py:128-134 | an empty or all-whitespace query returns the whole catalog in order |
| `Search.NoMatchIsEmpty` | main.py:128-134 | when no catalog item matches, the result is empty |
| `Search.CaseInsensitive` | main.py:128 | lower-casing the query first changes nothing |
| `Search.PaddingIgnored` | main.py:128 | a whitespace character before or after the query changes nothing |
| `Search.NormalizePlain` | main.py:128 | a non-empty query of lower-case letters is compared unchanged |
| `Search.NormalizeUnchanged` | main.py:128 | a query without upper-case letters and without whitespace at either end is compared unchanged |
| `Search.KeyPrefixFinds` | main.py:132-133 | a query whose normalised form starts an item's key returns that item |
| `Search.SearchAad` | main.py:119 | any query that normalises to `aad` returns the Aadhaar item |
| `Search.CatalogAvoidsZ` | main.py:118-124 | no key, label, category or keyword of the catalog contains `z` or `Z` |
| `Search.ZQueryMisses` | main.py:131-132 | a query starting with `z` matches no item whose texts contain neither `z` nor `Z`, under either branch of the rule |
| `Search.SearchNoMatch` | main.py:126-134 | `search("zzz-nomatch")` returns no results |
| `Guides.GetGuide` | main.py:215-219 | fails with `NotFound` exactly when the key is not one of aadhaar, pan, dl, voter, passport; otherwise returns that key's guide |
| `Guides.GuideKeysAreDocTypes` | main.py:137-213 | the guide keys are exactly the application document types |
| `Guides.PanGuide` | main.py:154-168 | the PAN guide has six steps and the official link `https://www.incometax.gov.in/` |
| `Guides.GuideStepCounts` | main.py:137-213 | the Aadhaar guide has seven steps and every other guide has six |
| `Auth.LoginUser` | main.py:73 | the inserted user has the request's email, name `Citizen` when none is given, language `en` when none is given, and is active |
| `Auth.UpsertUser` | main.py:73 | afterwards the email is present; every existing user is unchanged; only a new email gets the login user |
| `Auth.UpsertIsCreateOnly` | main.py:73 | a second login with the same email leaves the user table as the first login left it, whatever name or language it carries |
| `Auth.LoginSkipsLanguageCheck` | main.py:73 | a first login asking for language `fr` stores a user that the `User` schema rejects |
| `Auth.NewSession` | main.py:75-77 | the login session binds the request's email and the token, and expires exactly seven days (604800 s) after `now` |
| `Auth.Live` | main.py:226 | the `find_one` filter: the session carries this token and expires strictly after `now` |
| `Auth.FindSession` | main.py:226 | returns the first session with this token whose expiry is strictly after `now`, or none when there is no such session |
| `Auth.Authenticate` | main.py:223-229 | an empty token gives `MissingToken`; success iff some session has the token and expires strictly after `now`, and then the result is that session's email; otherwise `InvalidOrExpiredToken` |
| `Auth.FindSessionAppend` | main.py:226 | appending a session changes the lookup only when no earlier session was live for the token |
| `Auth.ValidUntilExpiry` | main.py:226 | a session is accepted iff its token is non-empty and `now` is strictly before its expiry, so at the expiry instant it is refused |
| `Auth.AppendKeepsAcceptedTokens` | main.py:75-77 | appending a session never changes the result for a token that was already accepted |
| `Auth.LoginTokenAuthenticates` | main.py:75-78 | after a login with a fresh non-empty token, the token gives the login's email before now + 7 days and is refused from then on |
| `Service.IdText` | main.py:105-106 | an identifier's string form is non-empty, and it is one character long exactly for identifiers below 16 |
| `Service.IdTextInjective` | main.py:105-106 | distinct identifiers have distinct string forms |
| `Service.IdTextDistinct` | main.py:105-106 | records with different identifiers are listed with different `_id` strings |
| `Service.OwnedBy` | main.py:103 | the `{"user_email": email}` filter: never more records than stored |
| `Service.Query` | main.py:103 | the listing query: the first fifty records of the store that belong to the caller |
| `Service.Render` | main.py:105-106 | a listed record: the stored application with its identifier as an `_id` string |
| `Service.OwnedByMembers` | main.py:103 | the `user_email` filter, before the cap of fifty, keeps a record iff it is stored and belongs to the caller |
| `Service.OwnedBySubsequence` | main.py:103 | the filter keeps the caller's records in store order |
| `Service.OwnedByKeepsOrder` | main.py:103 | identifiers stay strictly increasing and below the counter after filtering |
| `Service.OthersDoNotChangeListing` | main.py:103 | another user's new record does not change the caller's listing |
| `Service.AppendedIsListed` | main.py:97-103 | a record just stored for a user appears in their listing while fewer than fifty of theirs came before it |
| `Service.QueryProperties` | main.py:103-107 | at most fifty records, all stored and all the caller's, in store order, with pairwise distinct identifier strings |
| `Service.RequestMetadata` | main.py:35 | the request's metadata, the empty mapping when it is omitted |
| `Service.Store.Login` | main.py:67-78 | the user table becomes the create-only upsert; exactly one session (email, token, now + 7 days) is appended; nothing else changes; the response echoes the token, the email and the request's own name |
| `Service.Store.CreateApplication` | main.py:93-98 | authentication first; then an invalid `doc_type` fails; on success exactly one `draft` application of the caller, with metadata `RequestMetadata(payload)`, is appended and its reference and `draft` are returned; on any failure nothing is written |
| `Service.Store.ListApplications` | main.py:100-107 | authentication first; the result is the caller's records from the query with identifiers as strings: at most fifty, all the caller's, with distinct identifiers |
| `Service.Store.InitPayment` | main.py:110-115 | authentication first; then a negative amount fails; on success exactly one `initiated` INR payment of the caller is appended and its id and `initiated` are returned; on any failure nothing is written |

## Left out

- The web layer is not modelled: the FastAPI app, CORS, routing, `root`, the `/test`
  store probe and server start-up (main.py:13-21, 47-64, 231-234). HTTP status codes
  become error kinds.
- `get_user_from_token` (main.py:84-90) is not modelled. It is an unused variant of the
  token check `Authenticate` and lacks the empty-token branch.
- The database client is not modelled. `database.py` is not part of this model.
  `_collection`, `create_document` and `get_documents` are replaced by the `Store` fields,
  so fields that `create_document` may add are absent. The "database not configured"
  failures of `login` and the token check are absent too.
- Randomness and the clock are not modelled. `uuid4().hex` becomes the token parameter.
  The model therefore cannot state that every token is fresh. Lemmas that need a fresh
  token require one.
- `datetime.now` becomes an integer count of seconds, so sub-second timing is dropped.
- Only ASCII is handled. `str.lower` and `str.strip` cover ASCII letters and ASCII
  whitespace only; Python handles all of Unicode.
- Concurrency is not modelled. Each handler is one atomic step on a sequential store.
  Two concurrent `update_one` upserts for one email could insert two user documents
  when there is no unique index. The model's users map holds one user per email, so it
  cannot represent that.
- Email validation (`EmailStr`) is not modelled. Emails are opaque strings.
- `amount` is a `real`, so float rounding and NaN values are not modelled.
- Application `metadata` is a string-to-string map, not an arbitrary JSON mapping.
- Pydantic reports every failing field, but the model reports only the first one.
- `Search.SearchAad`: proves only that the Aadhaar item is in the result, not that it is
  the only one.
