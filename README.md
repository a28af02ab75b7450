# Lucky-draw WhatsApp backend: draw execution and message library

This project is a Dafny model of two parts of the lucky-draw WhatsApp backend.

**Draw execution.** This is `POST /api/draws/execute` (`routes/draws.js`). Given a contest,
the handler proceeds in order:

- it checks the request;
- it reads the contest's validated participants, ordered by entry time;
- it computes the remaining prize capacity: the summed prize quantities minus the winner rows the
  contest's earlier draws already hold;
- it refuses a draw that asks for more winners than there are participants, or than there are
  prize slots left;
- otherwise it inserts one draw row and then one winner row per selected participant.

The selected participants are the first `numberOfWinners` of a shuffled copy of the pool, each
paired by position with a prize id.

The model state and its specification:

- The store's four tables form the `Draws.Ledger` class, together with the counters the store uses
  to hand out serial ids.
- `Draws.Ledger.Execute` is the handler.
- It is specified by the function `Draws.Attempt` (the handler's answer) and the function
  `Draws.Apply` (the tables afterwards).
- The invariant `Draws.Consistent` is preserved across any sequence of draws. It includes
  "no contest holds more winners than its prize slots". It also assumes participant ids are unique
  (see Left out); it makes no assumption about prize quantities.
- The shuffle is an input: `perm`, any permutation of the pool's indices.

**Message library.** This is the in-memory `MessageLibraryService` (`services/messageLibraryService.js`)
and the routes over its arrays (`routes/messageLibrary.js`):

- lookups by id, by keyword (case-insensitive substring match on the trimmed text), and by a
  button or list reply;
- the flattening of a list message's sections into its options;
- the construction of the WhatsApp Cloud API request for a library message (at most three
  buttons, row and button ids defaulting to `id`, header and footer only when non-empty);
- append, replace, delete, status flip and import on the `messages` and `triggers` arrays.

Modules:

- `Common` — JavaScript's `undefined`, truthiness and `||` defaults, and the array and string
  operations the code uses, each proved against a meaning:
  - `filter` is an order-keeping multiset filter;
  - `findIndex` finds the first match;
  - `includes` decides "is a substring";
  - `trim` cuts only whitespace.
- `Draws` — the ledger, the handler and the invariants.
- `DrawScenarios` — four worked draws, each over any shuffle order.
- `MessageLibrary` — the service's records and the `MessageLibraryService` class.
- `Payload` — the payload-building switch of `sendLibraryMessage`.
- `LibraryRoutes` — the message library handlers. Each works in place on the service object.

Conventions:

- A record field is an `Option`, and `None` is an absent property; request bodies may omit any of
  them.
- An exception is a `Result` error:
  - `TypeError` for a property read on `undefined`;
  - `MissingCredentials` and `UnsupportedType` for the two throws of the send path.
- Ids generated from `Date.now()`, ISO timestamps, the store credentials' presence and the shuffle
  order are parameters.

Where the code and the design intent differ, the model follows the code, except for the count check (see Findings):

- **Negative count.** The intent is that the count must be a positive integer. The code's
  `!numberOfWinners` refuses only an absent or zero count. This is logged under Findings, and the
  handler model uses the corrected check.
- **Negative remaining capacity.** The intent is that negative remaining capacity is a fatal
  integrity error. The code has no such check, and neither has the model. The model shows that
  remaining capacity cannot be negative once a contest has a winner, nor when no stored quantity is
  negative (`Draws.Ledger.Remaining`). A contest whose quantities sum below zero refuses every draw.
- **Shuffle, and the two inserts.** The intent is an unbiased shuffle, with the two inserts as one
  atomic unit. The code uses a comparator sort with random tie-breaks, and separate inserts. The
  model takes any permutation and runs sequentially (see Left out).

## Model

| member | source | states |
|---|---|---|
| Common.FilterSpec | services/messageLibraryService.js:870 | `filter` keeps exactly the elements passing the test, each as often as in the input, in input order |
| Common.FindIndex | routes/messageLibrary.js:57 | `findIndex` is -1 exactly when nothing matches, else the index of the first match |
| Common.Find | services/messageLibraryService.js:875 | `find` is absent exactly when nothing matches, else an element that matches with no match before it |
| Common.FindIndexUpdate | routes/messageLibrary.js:63 | replacing the first match by another matching value keeps it the first match |
| Common.Trim | services/messageLibraryService.js:880 | `trim` returns a piece of the string with only whitespace before and after it, and neither starting nor ending in whitespace |
| Common.IncludesSpec | services/messageLibraryService.js:889 | `text.includes(k)` holds exactly when `k` occurs in `text` at some position |
| Draws.SliceEnd | routes/draws.js:100 | `slice(0, end)` with a negative end stops `-end` elements before the end (never below 0); a non-negative end is capped at the length |
| Draws.NegativeCountOverbooks | routes/draws.js:28-100 | on any consistent tables with non-negative remaining slots and a pool that exceeds them by more than one, the handler as written (`AttemptAsWritten`) accepts a count of -1 and carries it out. It inserts all but one of the pool, more than the remaining slots, so the contest exceeds its capacity and the draw row (`total_winners: -1`) no longer matches its rows. The corrected `Attempt` refuses the request |
| Draws.CorrectionOnlyRefusesNegative | routes/draws.js:28-30 | the corrected handler answers differently from the handler as written only for a negative count, and such a count (with a contest id, when configured) is refused as a malformed request |
| Draws.EligiblePool | routes/draws.js:33-38 | the pool is exactly the contest's validated participants, each as often as in the table, sorted by entry time |
| Draws.EligiblePoolDistinct | routes/draws.js:33-38 | with unique participant ids, no participant occurs twice in the pool |
| Draws.TotalPrizeSlotsNonNegative | routes/draws.js:58 | the summed quantities of a contest's prizes (absent counted as 0) are non-negative when no quantity is negative |
| Draws.DrawIdsOf | routes/draws.js:68 | an id is in the list exactly when some draw of the contest carries it |
| Draws.ExistingWinners | routes/draws.js:70-77 | the counter is the number of winner rows whose draw belongs to the contest (0 when it has no draw) |
| Draws.ContestCountAfterDraw | routes/draws.js:70-77 | appending a draw and rows with a fresh draw id adds exactly those rows to that contest's count and nothing to any other's |
| Draws.Shuffled | routes/draws.js:99 | the shuffled pool has the pool's length and holds the participant `perm[i]` at place `i` |
| Draws.ShuffledPermutes | routes/draws.js:99 | the shuffled pool is a permutation of the pool: the same participants, each as often |
| Draws.SelectionFacts | routes/draws.js:99-111 | the rows for the first `n` of a shuffled pool name distinct participants, row `i` the participant `perm[i]` with its name |
| Draws.AttemptChecks | routes/draws.js:23-82 | checks in the handler's order, with the corrected count check: missing configuration, then a missing contest or a count that is not positive, then an empty pool, then a pool too small, then too few slots (reporting requested and remaining); a draw goes ahead exactly when the count fits both pool and capacity |
| Draws.AttemptWinners | routes/draws.js:85-111 | a carried-out draw has its row (contest, `RANDOM`, executor, count) and exactly `numberOfWinners` rows of distinct pool participants, row `i` taking the shuffled pool's place `i`, its name or null, `prizeIds[i]` or null, `PENDING`, not notified |
| Draws.AttemptKeepsConsistent | routes/draws.js:79-118 | after a draw the ledger is still consistent (unique fresh draw ids, every winner row referring to a draw, every draw holding exactly its distinct winners, no contest over its prize slots), and the contest's count grows by the new rows |
| Draws.DrawRowsAfterDraw | routes/draws.js:121-124 | reading the new draw's winners back gives exactly the inserted rows; other draws' winners are unchanged |
| Draws.IdsBelowAfterDraw | routes/draws.js:85-96 | inserting the draw row under the next serial id keeps all draw ids unique and below the counter |
| Draws.ReferencesAfterDraw | routes/draws.js:103-118 | winner rows referring to the new draw keep every winner row referring to an existing draw |
| Draws.CompleteAfterDraw | routes/draws.js:85-118 | a draw row inserted with its full set of distinct winner rows keeps every draw complete |
| Draws.CapacityAfterDraw | routes/draws.js:79-118 | inserting no more rows than the remaining slots keeps every contest within its prize slots |
| Draws.RejectionChangesNothing | routes/draws.js:23-82 | a refused request writes nothing |
| Draws.Decide | routes/draws.js:23-111 | the handler's reads and checks, with the corrected count check, yield exactly `Attempt`'s answer |
| Draws.Ledger.Remaining | routes/draws.js:79 | the remaining capacity plus the contest's winner count is its prize total; in a consistent ledger it is never negative once the contest has a winner, nor when no prize quantity is negative |
| Draws.Ledger.Execute | routes/draws.js:18-134 | the answer is `Attempt`'s, the tables become `Apply`'s (unchanged on refusal, one draw row and its winner rows appended on success), the invariant is kept, and the inserted rows are exactly the new draw's winners |
| DrawScenarios.ScenarioA | routes/draws.js:79-118 | with capacity 3 (quantities 2 and 1) and five entrants, asking for 3 succeeds with three distinct entrants and leaves 0 slots |
| DrawScenarios.ScenarioB | routes/draws.js:79-82 | after that draw, asking for 1 is refused reporting requested 1, remaining 0 |
| DrawScenarios.ScenarioC | routes/draws.js:41-43 | a contest with no validated participant refuses any positive count, whatever the other contests hold |
| DrawScenarios.ScenarioD | routes/draws.js:79-82 | asking for 4 of five entrants with 2 slots is refused reporting requested 4, remaining 2 |
| MessageLibrary.Overlay | routes/messageLibrary.js:63-67 | `{ ...base, ...patch }`: each property comes from the patch when it has one, else from the base |
| MessageLibrary.OverlayLaws | routes/messageLibrary.js:63-67 | spreading an empty record changes nothing, and spreading the same patch twice equals spreading it once |
| MessageLibrary.NewMessage | services/messageLibraryService.js:1097-1102 | the caller's own id wins over the generated one, both timestamps are now, every other field is the caller's |
| MessageLibrary.NewTrigger | services/messageLibraryService.js:1110-1115 | the same for triggers |
| MessageLibrary.AnyKeyword | services/messageLibraryService.js:888-890 | true exactly when some keyword, lowercased, is included in the text |
| MessageLibrary.KeywordHitMeaning | services/messageLibraryService.js:882-893 | the filter's test holds exactly for `keyword_match` triggers one of whose keywords, lowercased, is a substring of the text; other types never match |
| MessageLibrary.OptionsOfRows | services/messageLibraryService.js:959-968 | one option per row, in order, carrying the row's fields |
| MessageLibrary.FlattenLength | services/messageLibraryService.js:958-969 | the flattened options number the sum of the sections' row counts |
| MessageLibrary.FlattenAppend | services/messageLibraryService.js:958-969 | flattening distributes over concatenating section lists (section-then-row order) |
| MessageLibrary.FlattenOne | services/messageLibraryService.js:959-968 | one section flattens to exactly its rows' options |
| MessageLibrary.ListOptionsOf | services/messageLibraryService.js:957-971 | a section without `rows` throws, exactly then; otherwise the options are every section's rows, concatenated in section-then-row order (`Flatten`), one per row |
| MessageLibrary.CollectOptions | services/messageLibraryService.js:957-971 | the nested push loop returns the flattened options, or the throw of the first section without rows |
| MessageLibrary.MessageLibraryService.PublishedMessages | services/messageLibraryService.js:869-871 | exactly the published messages, each as often as stored, in store order |
| MessageLibrary.MessageLibraryService.MessageById | services/messageLibraryService.js:874-876 | absent exactly when no message has the id, else the first that has it |
| MessageLibrary.MessageLibraryService.FindMatchingTriggers | services/messageLibraryService.js:879-894 | throws exactly when the text is missing or a `keyword_match` trigger has no value; otherwise exactly the triggers matching the lowercased, trimmed text, each as often as stored, in store order |
| MessageLibrary.MessageLibraryService.FindButtonTrigger | services/messageLibraryService.js:897-902 | the first `button_click` trigger whose value strictly equals the id; none exactly when there is no such trigger |
| MessageLibrary.MessageLibraryService.FindListTrigger | services/messageLibraryService.js:905-910 | the first `list_selection` trigger whose value strictly equals the id; none exactly when there is no such trigger |
| MessageLibrary.MessageLibraryService.ProcessInteractiveResponse | services/messageLibraryService.js:913-932 | a button reply uses the button lookup and a list reply the list lookup, any other type yields null; a hit carries exactly the lookup's trigger (the first match) and the message its `targetId` names; a missing announced reply throws |
| MessageLibrary.MessageLibraryService.MessageButtons | services/messageLibraryService.js:935-948 | empty for a missing message or one without buttons, a throw for one without content, else one entry per button in order with its five fields |
| MessageLibrary.MessageLibraryService.ListOptions | services/messageLibraryService.js:951-972 | empty for a missing message or one without sections; throws exactly for a message without content or with a section without rows; otherwise every section's rows concatenated in section-then-row order (`Flatten`), as many options as rows |
| MessageLibrary.MessageLibraryService.GetMessageListOptions | services/messageLibraryService.js:951-972 | the method's answer is `ListOptions`' |
| MessageLibrary.MessageLibraryService.AddMessage | services/messageLibraryService.js:1096-1106 | appends exactly the new record at the end, returns it, and leaves the triggers alone |
| MessageLibrary.MessageLibraryService.AddTrigger | services/messageLibraryService.js:1109-1119 | appends exactly the new trigger at the end, returns it, and leaves the messages alone |
| MessageLibrary.AddedMessageFound | services/messageLibraryService.js:1096-1106 | after appending a message with a fresh id, looking that id up finds it |
| Payload.ReplyButtons | services/messageLibraryService.js:1008-1014 | the first `min(3, n)` buttons, in order, each replying with `buttonId` or else `id` |
| Payload.ListSectionOf | services/messageLibraryService.js:1041-1048 | a section keeps its title and one row per row (none when `rows` is missing) |
| Payload.ListSections | services/messageLibraryService.js:1041-1048 | one payload section per section, in order |
| Payload.Present | services/messageLibraryService.js:1018-1023 | a header or footer is kept exactly when it is non-empty |
| Payload.BodyOf | services/messageLibraryService.js:988-1069 | an unsupported type throws with its type, a supported one without content throws; text bodies carry the content's body; button cards hold at most 3 buttons with fallback ids; list cards are `ListSections` of the sections, every row with its fallback id, title and description, and the `View Options` default; texts default to empty; the header and footer text is copied exactly when non-empty |
| Payload.BuildSendRequest | services/messageLibraryService.js:976-1069 | missing credentials fail before anything else; otherwise the body's failure is the request's, and a request goes to the configured (default `v22.0`) API version and phone number with a bearer token and the recipient |
| LibraryRoutes.Updated | routes/messageLibrary.js:63-67 | the stored message overlaid with the body and stamped; an id the body leaves out is kept |
| LibraryRoutes.UpdateKeepsLookup | routes/messageLibrary.js:57-67 | after an update whose body leaves out the id or repeats the record's own id, looking the id up finds the updated record |
| LibraryRoutes.WithStatus | routes/messageLibrary.js:98-105 | only the first message with the id gets the status and time; every other index and the length are unchanged; no change without a match |
| LibraryRoutes.WithStatusIdempotent | routes/messageLibrary.js:104-105 | setting the same status twice equals setting it once |
| LibraryRoutes.WithStatusLookup | routes/messageLibrary.js:118-125 | the lookup then finds the message with the new status, and of two status changes the later one holds |
| LibraryRoutes.RemoveAtFacts | routes/messageLibrary.js:86 | `splice(i, 1)` leaves one element fewer, the rest in their order, and the same multiset less that element |
| LibraryRoutes.GetMessage | routes/messageLibrary.js:29-40 | 404 exactly when the lookup misses, else the found message |
| LibraryRoutes.CreateMessage | routes/messageLibrary.js:43-51 | 201 with the appended record; only `messages` grows, by that record |
| LibraryRoutes.CreateTrigger | routes/messageLibrary.js:157-165 | 201 with the appended trigger; only `triggers` grows, by that trigger |
| LibraryRoutes.UpdateMessage | routes/messageLibrary.js:54-74 | unknown id: 404 and no change; else the first match is replaced by the overlaid, stamped record, nothing else changes, and the reply is that record |
| LibraryRoutes.DeleteMessage | routes/messageLibrary.js:77-92 | unknown id: 404 and no change; else exactly the first match is removed |
| LibraryRoutes.SetStatus | routes/messageLibrary.js:98-107 | the messages become `WithStatus`'s, 404 without a match, else the updated record |
| LibraryRoutes.Publish | routes/messageLibrary.js:95-112 | sets `published` on the first match only; 404 `Message not found` exactly for an unknown id, otherwise 200 with the updated record |
| LibraryRoutes.Unpublish | routes/messageLibrary.js:115-132 | sets `draft` on the first match only; 404 `Message not found` exactly for an unknown id, otherwise 200 with the updated record |
| LibraryRoutes.TriggersForMessage | routes/messageLibrary.js:148 | exactly the triggers of that message, each as often as stored, in store order |
| LibraryRoutes.MatchTriggers | routes/messageLibrary.js:168-183 | the matching triggers with `count` equal to their number, echoing text and phone; 500 when matching throws |
| LibraryRoutes.TestSend | routes/messageLibrary.js:186-205 | 400 unless both arguments are non-empty, then 404 for an unknown message, before any request is built; then the request or the failure's message with 500 |
| LibraryRoutes.Import | routes/messageLibrary.js:221-238 | each list is replaced exactly when the body provides it, otherwise left as it was |

## Left out

- Draws.Ledger: its constructor and `Execute` (through `Valid`) assume that no two participant rows share a `participant_id`, the participants table's key. The source does not check this, and the store schema is not part of this model. Distinct winners (`Draws.AttemptWinners`) depend on it. Prize quantities are not constrained: any stored quantity, negative included, is summed as the code sums it.
- Draws.Ledger.Execute: the HTTP status of a refusal (500 for a missing configuration, 400 for the others) and the exact error texts are recorded only in comments on `Draws.DrawError`, not in a contract.
- The Supabase client and its query chains (`routes/draws.js:3-14` and the `.from().select()` calls). The tables are in-memory sequences in `Draws.Ledger`. Store errors (`throw partErr` and the like) are not modelled. Neither is the unchecked error of the existing-winners query, which counts a failed query as zero.
- Draws.Ledger.Execute: the successful reply is the draw row and its winner rows. The joined re-read (`participants(*)`, `prizes(*)`, `draws(*)`, lines 121-124) is modelled only as "the rows of the new draw" (`Draws.DrawRowsAfterDraw`).
- Draws.Ledger.Execute: the model's ledger starts empty (draw and winner ids from 1) and keeps serial counters. The database's actual id sequence is not modelled.
- Draws.Attempt: the shuffle `sort(() => 0.5 - Math.random())` is replaced by an arbitrary permutation `perm` supplied by the caller. Its bias and its randomness are not modelled.
- The check-then-act race between the capacity check and the inserts, and the non-atomicity of the two inserts. The model is sequential: each call runs to completion before the next.
- Draws.Ledger.Execute: the counts are JavaScript numbers. The model uses unbounded integers, so fractional and non-numeric counts are not modelled.
- The HTTP post of `sendLibraryMessage` (`axios.post`, lines 1071-1092) and its reply. `Payload.BuildSendRequest` builds the request it would post. `LibraryRoutes.TestSend` answers with that request, not with the API's response, and the post's own failure is not modelled.
- The seed messages and triggers of the service's constructor (lines 8-865). The model's constructor takes the initial arrays as parameters.
- `Date.now()` ids and `new Date().toISOString()` timestamps: they are the `generatedId` and `now` parameters.
- Console logging, `routes/webhook.js` (signature check, verify handshake), `routes/whatsapp.js`, `server.js` and `services/webhookService.js`: I/O and framework plumbing.
- The plain list reads `GET /messages`, `GET /messages/published`, `GET /triggers` and `GET /export` (routes/messageLibrary.js:7-26, 135-143, 208-219). They return a field as it is, or `PublishedMessages`.
- The 500 replies of the `catch` blocks, except where the model's operations can throw: the match route and the send route.
- LibraryRoutes.TestSend: the text of a `TypeError` is JavaScript's own message. The model stands for it with the fixed text "TypeError".
- JavaScript aliasing. In the source, publish and unpublish mutate the stored object in place, and objects handed out by a lookup share identity with the store. The model's records are values.
- Explicit `null` in request bodies and properties outside the modelled records. A body field is either absent (`None`) or a value of the modelled type. A `null` the spread would copy is not represented.
- MessageLibrary.KeywordsOf: non-string entries of a keyword array (on which `toLowerCase` would throw) are outside the model's types. Keywords are strings.
- Common.ToLower: only ASCII letters are lowercased. Unicode case mapping is not modelled.

## Findings

| source | as written | input that shows it | evidently intended | confidence | as-written member | corrected member |
|---|---|---|---|---|---|---|
| routes/draws.js:28 | `!numberOfWinners` refuses only an absent or zero count | `numberOfWinners = -1` with `remaining >= 0` and a pool of more than `remaining + 1` participants: it passes the guards at lines 28, 45 and 80, and `slice(0, -1)` selects all but one participant, more than the remaining prize slots; the contest then holds more winners than prize slots | a count must be a positive integer; with the corrected check (`ValidRequest`, used by `Attempt`) every carried-out draw has `0 < numberOfWinners` and exactly that many rows | not executed | Draws.NegativeCountOverbooks | Draws.AttemptWinners |
