# Zones resource: request translation, document updates and replies

This project models the request-translation core of the `/zones` REST resource
of Chula-Expo (`src/routes/api/zones/index.js`). The resource is an Express router
over a Mongoose collection. Its five handlers list, get, create, update and delete
zones. Around the store calls they do a small amount of self-contained work,
and that work is what the model covers:

- **Field selection** (GET `/` and GET `/:id`): the `fields` parameter is split
  on commas. Each name goes through a fixed alias table (`nameEN` → `name.en`,
  `locationLat` → `location.latitude`, …) and is followed by one space.
  The list handler writes the table as an `else if` chain. The get-by-id
  handler writes it as six independent `if`s. Both are proved to compute the
  same selection string (`FieldSelection`).
- **Sort parsing** (GET `/`): the `sort` parameter is split on commas. A
  leading `-` means descending (-1) and anything else ascending (1). Only
  `nameEN` is renamed. The result is a JavaScript object built key by key. It
  is modelled as an ordered list of entries, because such an object keeps its
  keys in first-insertion order, and reassigning a key changes its value but
  not its position (`SortSpec`).
- **Filter building** (GET `/`): `name.en` (a regular expression), `type`
  (exact) and `updateAt` (a date range) are added only when their query
  parameter is given (`QueryFilter`).
- **Create and partial update** (POST, PUT): a `ZoneDocument` class whose
  fields the handlers assign one by one. Each method is proved against a pure
  record function (`Created`, `Merged`), and the lemmas about those functions
  state the per-field promises (`Zones`).
- **Replies** (all five handlers): the status, success flag, message, results
  and error code chosen for each store outcome (`Replies`).

JavaScript truthiness decides most branches. A query parameter counts as
given when it is present and non-empty. A body value counts as set when it is
truthy in the ECMAScript sense, so `""`, `0`, `false`, `null` and `NaN` are
all treated as absent (`Js.Truthy`, `Js.Given`).

Points where the code is easy to misread:

- the list handler's doc comment documents a `[name]` parameter, but the
  name filter reads the query parameter `nameEN`;
- the stamp field PUT writes is spelled `updateAt`;
- get-by-id sends its not-found error under `results`, while update sends its
  not-found error under `errors`;
- the list handler reports store failures through `res.sendError(5, err)`,
  whose status the model does not know;
- the `+name` example in the list handler's doc comment for `sort` is not special: `+` is
  kept as part of the key.

## Model

| member | source | states |
|---|---|---|
| `Js.Split` | src/routes/api/zones/index.js:29 | `split(',')` gives at least one piece, and no piece contains the separator |
| `Js.JoinSplit` | src/routes/api/zones/index.js:29 | joining the pieces of a split with the separator gives back the original string |
| `Js.SplitCount` | src/routes/api/zones/index.js:29 | a split has exactly one piece more than the string has separators |
| `Js.SplitJoin` | src/routes/api/zones/index.js:29 | splitting a join of one or more separator-free pieces gives back those pieces |
| `Js.SplitKeepsAbsent` | src/routes/api/zones/index.js:29 | a character absent from the string is absent from every piece |
| `FieldSelection.TargetsAreNotAliases` | src/routes/api/zones/index.js:139-156 | no alias target is itself an alias, so translating twice is the same as translating once |
| `FieldSelection.ListAlias` | src/routes/api/zones/index.js:31-47 | the `else if` chain, including its two repeated branches, is exactly the alias table; other names pass through unchanged |
| `FieldSelection.ByIdAlias` | src/routes/api/zones/index.js:139-156 | the six sequential `if`s are exactly the same alias table |
| `FieldSelection.SpacedAppend` | src/routes/api/zones/index.js:48 | the accumulated string for two lists of names is the two strings concatenated, in order |
| `FieldSelection.SpacedIsJoin` | src/routes/api/zones/index.js:27-51 | the accumulated string is the names joined by single spaces, plus one trailing space |
| `FieldSelection.ProjectionFields` | src/routes/api/zones/index.js:27-51 | for a `fields` value without spaces, splitting the selection string on spaces gives each requested name translated, in request order, then one empty piece; each name is followed by exactly one space |
| `FieldSelection.ListFieldwant` | src/routes/api/zones/index.js:27-51 | the list handler's loop computes the selection, which is empty when `fields` is absent or empty |
| `FieldSelection.ByIdFieldwant` | src/routes/api/zones/index.js:135-160 | the get-by-id loop computes the same selection as the list handler for every `fields` value |
| `SortSpec.Assign` | src/routes/api/zones/index.js:94-96 | assigning a key stores its direction; a new key goes last; an existing key keeps its place; other keys are unchanged |
| `SortSpec.LookupFindsKeys` | src/routes/api/zones/index.js:94-96 | a key has a stored direction exactly when it is one of the object's keys |
| `SortSpec.SortKeysInFirstOrder` | src/routes/api/zones/index.js:88-100 | the sort object's keys are the tokens' keys (with `-` stripped and `nameEN` renamed), each once, in order of first appearance |
| `SortSpec.LastOccurrenceWins` | src/routes/api/zones/index.js:90-99 | a repeated key takes the direction of its last occurrence |
| `SortSpec.ParseSort` | src/routes/api/zones/index.js:88-100 | the `reduce` starting from `{}` computes the sort object, which is `{}` when `sort` is absent or empty |
| `QueryFilter.BuildFilter` | src/routes/api/zones/index.js:53-73 | `name.en` is present iff `nameEN` is given (as its regex), `type` iff `type` is given (exact), `updateAt` iff `update` is given (range); there are no other keys |
| `Zones.SlotsDetermineZone` | src/routes/api/zones/index.js:255-301 | the fifteen body-writable fields and `updateAt` make up the whole zone, so nothing else can change |
| `Zones.MergedSlots` | src/routes/api/zones/index.js:255-301 | PUT overwrites a field iff the body value is truthy, keeps the stored value otherwise, and always sets `updateAt` to the stamp |
| `Zones.MergeWithFalsyBody` | src/routes/api/zones/index.js:255-301 | a PUT body with no truthy field changes only the stamp |
| `Zones.MergeWithFullBody` | src/routes/api/zones/index.js:255-301 | a PUT body whose fields are all truthy replaces all fifteen fields |
| `Zones.MergeIsIdempotent` | src/routes/api/zones/index.js:255-301 | repeating a PUT with the same body gives the same zone apart from the stamp |
| `Zones.OverlayValues` | src/routes/api/zones/index.js:255-301 | the overlay of two bodies takes each field from the later body when it is truthy, and from the earlier otherwise |
| `Zones.MergesCompose` | src/routes/api/zones/index.js:255-301 | two PUTs in a row equal one PUT whose body is the later laid over the earlier |
| `Zones.CreatedSlots` | src/routes/api/zones/index.js:195-215 | POST copies every field unconditionally, except `thumbnail`, `banner` and `website`, which it sets only when truthy; `updateAt` is untouched |
| `Zones.CreateRoundTrip` | src/routes/api/zones/index.js:195-215 | when the optional fields are truthy, the created zone's fields, localized pairs included, equal the submitted values |
| `Zones.CreateAndUpdateAgree` | src/routes/api/zones/index.js:195-299 | a truthy body field is stored the same way by POST and by PUT |
| `Zones.ZoneDocument.constructor` | src/routes/api/zones/index.js:192 | `new Zone()` holds the blank zone |
| `Zones.ZoneDocument.Load` | src/routes/api/zones/index.js:238 | the document handed to the `findById` callback holds the stored zone |
| `Zones.ZoneDocument.FillFromBody` | src/routes/api/zones/index.js:195-215 | POST's assignments in place leave the document holding `Created` of its previous value |
| `Zones.ZoneDocument.FillNameAndMedia` | src/routes/api/zones/index.js:195-203 | copies both names and `places`; sets `thumbnail` and `banner` only when truthy; nothing else changes |
| `Zones.ZoneDocument.FillTexts` | src/routes/api/zones/index.js:204-209 | copies the six localized texts unconditionally; nothing else changes |
| `Zones.ZoneDocument.FillRest` | src/routes/api/zones/index.js:210-215 | sets `website` only when truthy; copies `type` and both coordinates; nothing else changes |
| `Zones.ZoneDocument.ApplyUpdate` | src/routes/api/zones/index.js:255-301 | PUT's guarded assignments in place leave the document holding `Merged` of its previous value and the stamp |
| `Zones.ZoneDocument.UpdateName` | src/routes/api/zones/index.js:255-260 | sets `name.en` and `name.th` each only when the body value is truthy; nothing else changes |
| `Zones.ZoneDocument.UpdateMedia` | src/routes/api/zones/index.js:261-269 | sets `places`, `thumbnail` and `banner` each only when truthy; nothing else changes |
| `Zones.ZoneDocument.UpdateWelcomeMessage` | src/routes/api/zones/index.js:270-275 | sets the two `welcomeMessage` texts each only when truthy; nothing else changes |
| `Zones.ZoneDocument.UpdateShortName` | src/routes/api/zones/index.js:276-281 | sets the two `shortName` texts each only when truthy; nothing else changes |
| `Zones.ZoneDocument.UpdateDescription` | src/routes/api/zones/index.js:282-287 | sets the two `description` texts each only when truthy; nothing else changes |
| `Zones.ZoneDocument.UpdateWebsiteAndType` | src/routes/api/zones/index.js:288-293 | sets `website` and `type` each only when truthy; nothing else changes |
| `Zones.ZoneDocument.UpdateLocation` | src/routes/api/zones/index.js:294-299 | sets latitude and longitude each only when truthy; nothing else changes |
| `Replies.ListReply` | src/routes/api/zones/index.js:103-125 | success iff both count and fetch succeed, then 200 with the zones, total, limit and skip; otherwise `sendError` with code 5 |
| `Replies.GetByIdReply` | src/routes/api/zones/index.js:162-182 | store error iff 500 with code 5; missing iff 403 with code 34 under `results`; found iff 200 with the zone |
| `Replies.CreateReply` | src/routes/api/zones/index.js:218-231 | 201 with "Create Zone successful" and the created zone iff the save succeeds; otherwise 500 with code 5 |
| `Replies.UpdateReply` | src/routes/api/zones/index.js:238-316 | 202 with the merged zone iff found and saved; 403 with code 26 iff missing; 500 with code 5 iff lookup or save failed |
| `Replies.DeleteReply` | src/routes/api/zones/index.js:321-334 | 500 with code 5 iff the removal failed; otherwise 202 with the removal message |
| `Replies.MissingIsNotServerError` | src/routes/api/zones/index.js:171-176 | a missing zone is a 403, never a 500, on GET and on PUT |
| `Replies.DeleteIgnoresExistence` | src/routes/api/zones/index.js:322-333 | DELETE answers the same whether or not the zone existed |
| `Replies.HandleCreate` | src/routes/api/zones/index.js:189-232 | building the document in place and replying to the save gives `CreateReply` |
| `Replies.HandleUpdate` | src/routes/api/zones/index.js:237-317 | the lookup callback, the in-place update and the reply to the save give `UpdateReply` |

## Left out

- The Express router and the `req`/`res` plumbing. A query parameter is modelled as one optional string. Express can also deliver an array or an object for a repeated or bracketed parameter; `.split` then throws, and that is not modelled.
- The Mongoose calls (`find`, `count`, `select`, `sort`, `skip`, `limit`, `exec`, `findById`, `save`, `findByIdAndRemove`). Their results are inputs to the reply functions (`Lookup`, `Count`, `Fetch`, `Removal`, a save-failed flag). The document a successful save returns is taken to be the document that was saved.
- Mongoose schema casting of assigned values, and the schema defaults of `new Zone()`. The Zone model file is not part of this model, so `Blank` holds every field undefined.
- `JSON.parse` of `update`, including its silently swallowed failure, and the range-query collaborator. Both are foreign code: the filter records the raw `update` text as `DateRange`.
- The error-lookup collaborator (`retrieveError`) and `res.sendError`. Only the code passed to them is modelled.
- `Number.parseInt` for `limit` and `skip`. These are taken as already-parsed optional integers and are only echoed in `queryInfo`.
- `new Date()`. The stamp is a parameter in milliseconds.
- Latitude and longitude are floating point. They are copied as opaque values and never computed on.
- The race between the count and fetch queries, and the promise that a page holds at most `limit` zones. Both belong to the store.
- That a GET after a DELETE finds nothing. This depends on the store's semantics, which are not modelled.
- JavaScript's ordering of integer-like keys (such as `"1"`) before other keys in the sort object, and special keys such as `__proto__`.
- Document paths other than the fifteen body-writable fields and `updateAt`, such as `_id` (which `findById` looks up) and `__v`. `Zone` does not represent them, so `SlotsDetermineZone` and the merge lemmas say nothing about them; neither handler assigns them.
