# chat2drive-ai: the WhatsApp command webhook and the dashboard summary, in Dafny

This project models two pieces of chat2drive-ai, a prototype that lets a user
manage a cloud drive by sending text commands over WhatsApp.

- **The webhook command protocol** (`supabase/functions/whatsapp-webhook/index.ts`).
  One inbound message goes through six steps. The body is trimmed, upper-cased as
  a whole and split on single spaces into a verb and positional tokens. A
  `command_logs` row is inserted with status `pending`. The verb is routed through
  a closed six-way switch (LIST, DELETE, MOVE, RENAME, UPLOAD, SUMMARY). A handler
  failure becomes an `Error: …` reply. The same row is then updated by id to the
  final status and the reply. The reply goes back inside a TwiML
  `<Response><Message>…</Message></Response>` envelope. Two other answers exist: an
  empty CORS preflight answer, and a JSON `{"error": …}` answer with status 500.
- **The dashboard activity summary** (`src/components/Dashboard.tsx`, `fetchLogs`).
  On a successful query, the fetched rows are mapped one-for-one into records, with
  a missing `details` read as `''`. The counters `{total, success, pending}` are
  computed by counting. On an error or missing data, nothing changes.

Files:

- `wrappers.dfy`: `Option`, which stands for JavaScript's `undefined`/`null`.
- `text.dfy`: JavaScript's `trim()`, ASCII `toUpperCase()`, `split(' ')` and `join`,
  with the lemmas that split and join invert each other.
- `json.dfy`: `JSON.stringify({ error: message })`, and a reader that recovers the
  message from it.
- `webhook.dfy`: the parser, the handlers, `Dispatch` (the reference outcome of
  one command), `RouteCommand` (the switch and catch as the source writes them, with
  `response` and `status` reassigned), the three response shapes, the `LogStore`
  class, and `HandleRequest`.
- `dashboard.dfy`: the row mapping, the counts, and the `DashboardState` class
  with `FetchLogs`.

Collaborators are parameters of the model. An `Environment` says whether the log
store accepts the insert and the update, and gives the summariser as a function
from the folder token to `Summarised(summary)` or `InvokeFailed(thrown)`. A
`Request` carries the HTTP method and either the form fields or the value that
reading the request threw. A `QueryResult` carries the dashboard query's `data`
and `error`.

Where the protocol's design intent and the code differ, the model follows the code:

- The whole body is upper-cased, arguments included, not only the verb.
- Splitting is on a single `' '`. Two adjacent spaces give an empty token, and an
  empty or blank body gives the single token `""`.
- No handler checks its arguments. A missing token renders as the text
  `undefined`, so `MOVE /a.pdf` replies `Moved /A.PDF to undefined successfully.`
  with status `success`. `LIST` alone names the folder `root`.
- The preflight answer has the default status 200 and no body. It is not 204.
- The reply is put inside `<Message>` without XML escaping.
- A failed log insert does not stop the command. An update error is ignored.

## Model

| member | source | states |
|---|---|---|
| `Text.Trim` | supabase/functions/whatsapp-webhook/index.ts:36 | the result is an infix of the body; everything cut from either end is JavaScript whitespace; the result neither starts nor ends with whitespace |
| `Text.TrimEmptyIff` | supabase/functions/whatsapp-webhook/index.ts:36 | a body trims to `""` exactly when it is all whitespace |
| `Text.TrimIdempotent` | supabase/functions/whatsapp-webhook/index.ts:36 | trimming twice is trimming once |
| `Text.Upper` | supabase/functions/whatsapp-webhook/index.ts:36 | same length, no lower-case ASCII letter left, each character mapped by the ASCII case mapping |
| `Text.Split` | supabase/functions/whatsapp-webhook/index.ts:37 | at least one piece; no piece contains the separator |
| `Text.JoinSplit` | supabase/functions/whatsapp-webhook/index.ts:37 | joining the pieces of a split with the separator gives back the string |
| `Text.SplitJoin` | supabase/functions/whatsapp-webhook/index.ts:37 | splitting a join of separator-free pieces gives back the pieces |
| `Text.SplitCount` | supabase/functions/whatsapp-webhook/index.ts:37 | a split yields one piece more than the separators in the string |
| `Json.UnquoteQuote` | supabase/functions/whatsapp-webhook/index.ts:118 | reading back the JSON string literal `JSON.stringify` writes gives the original string |
| `Json.EscapeChar` | supabase/functions/whatsapp-webhook/index.ts:118 | an ordinary character (not `"`, not `\`, not below U+0020) is written as itself and only it takes one character; every other character becomes an escape that starts with `\`; no written character is a control character |
| `Json.Quote` | supabase/functions/whatsapp-webhook/index.ts:118 | the literal body is never shorter than the string and holds no raw control character |
| `Json.ErrorObject` | supabase/functions/whatsapp-webhook/index.ts:118 | the body is the fixed `{"error":"`, the quoted message and `"}`, so it is 12 characters longer than the quoted message |
| `Json.ErrorObjectRoundTrip` | supabase/functions/whatsapp-webhook/index.ts:116-118 | the 500 body `{"error":"…"}` carries the error message exactly, for any string of Unicode scalar values |
| `Webhook.ErrorMessage` | supabase/functions/whatsapp-webhook/index.ts:86 | an `Error` gives its message; any other thrown value gives `Unknown error` |
| `Webhook.Parse` | supabase/functions/whatsapp-webhook/index.ts:36-38 | total; at least one token; the tokens joined by spaces are the trimmed, upper-cased body; no token holds a space or a lower-case letter |
| `Webhook.VerbIsFirstWord` | supabase/functions/whatsapp-webhook/index.ts:36-38 | the verb is the longest space-free prefix of the trimmed, upper-cased body |
| `Webhook.BlankBodyParse` | supabase/functions/whatsapp-webhook/index.ts:36-38 | an empty or blank body gives the single token `""`, so the verb `""` |
| `Webhook.ParseWords` | supabase/functions/whatsapp-webhook/index.ts:36-37 | words without whitespace, joined by single spaces, parse into those words upper-cased |
| `Webhook.Token` | supabase/functions/whatsapp-webhook/index.ts:63-78 | `parts[i]` is the token when `i` is in range and `undefined` otherwise |
| `Webhook.Render` | supabase/functions/whatsapp-webhook/index.ts:134-152 | a template literal writes a token as itself and `undefined` as the text `undefined` |
| `Webhook.RenderInjective` | supabase/functions/whatsapp-webhook/index.ts:134-152 | for upper-case tokens, two rendered arguments are equal exactly when the arguments are, so a missing token is never mistaken for a given one |
| `Webhook.FolderOrRoot` | supabase/functions/whatsapp-webhook/index.ts:128-132 | a missing or empty folder names `root`; any other folder is named verbatim |
| `Webhook.ListReply` | supabase/functions/whatsapp-webhook/index.ts:128-132 | the folder, or `root`, reads back from between `Listing files in ` and the fixed placeholder listing |
| `Webhook.DeleteReply` | supabase/functions/whatsapp-webhook/index.ts:134-137 | the rendered file path reads back from between `File ` and ` deleted successfully.` |
| `Webhook.MoveReply` | supabase/functions/whatsapp-webhook/index.ts:139-142 | the rendered source, ` to ` and the rendered destination read back from between `Moved ` and ` successfully.` |
| `Webhook.RenameReply` | supabase/functions/whatsapp-webhook/index.ts:144-147 | the rendered old name, ` to ` and the rendered new name read back from between `Renamed ` and ` successfully.` |
| `Webhook.UploadReply` | supabase/functions/whatsapp-webhook/index.ts:149-152 | the rendered folder, `/` and the rendered file name read back from after `Ready to receive file for upload to ` |
| `Webhook.UploadReplyAmbiguous` | supabase/functions/whatsapp-webhook/index.ts:149-152 | the UPLOAD reply does not determine its tokens: moving a `/`-separated part from the end of the folder to the front of the file name gives a different folder token and the same reply |
| `Webhook.SummaryHandler` | supabase/functions/whatsapp-webhook/index.ts:154-171 | returns the summariser's summary when it has one and throws its error otherwise |
| `Webhook.DeleteReplyWords` | supabase/functions/whatsapp-webhook/index.ts:134-137 | the DELETE reply's words are `File`, the path, `deleted`, `successfully.` |
| `Webhook.MoveReplyWords` | supabase/functions/whatsapp-webhook/index.ts:139-142 | the MOVE reply's words are `Moved`, the source, `to`, the destination, `successfully.` |
| `Webhook.RenameReplyWords` | supabase/functions/whatsapp-webhook/index.ts:144-147 | the RENAME reply's words are `Renamed`, the old name, `to`, the new name, `successfully.` |
| `Webhook.MoveReplyDeterminesTokens` | supabase/functions/whatsapp-webhook/index.ts:139-142 | two MOVE replies are equal exactly when their source and destination tokens are, missing ones included |
| `Webhook.Classify` | supabase/functions/whatsapp-webhook/index.ts:61-83 | a verb names a command exactly when it is that command's name; any other verb names none |
| `Webhook.Handle` | supabase/functions/whatsapp-webhook/index.ts:61-79 | a handler throws exactly when the command is SUMMARY and the summariser fails, and then throws the summariser's error |
| `Webhook.Dispatch` | supabase/functions/whatsapp-webhook/index.ts:56-89 | the final status is never `pending`; an unknown verb gives the fixed help text and `error`; the status is `error` exactly for an unknown verb or a failed SUMMARY; a failed SUMMARY replies `Error: ` and the message |
| `Webhook.StatusTextNamesStatus` | supabase/functions/whatsapp-webhook/index.ts:45-96 | the stored status text is `success`, `pending` or `error` exactly for that status, and different statuses store different texts |
| `Webhook.DispatchKnownVerb` | supabase/functions/whatsapp-webhook/index.ts:57-79 | a known verb whose handler returns keeps `success` and replies with exactly the handler's text |
| `Webhook.DispatchIgnoresSummariser` | supabase/functions/whatsapp-webhook/index.ts:61-83 | for any verb other than SUMMARY, the outcome does not depend on the summariser |
| `Webhook.UploadExample` | supabase/functions/whatsapp-webhook/index.ts:74-76 | `UPLOAD /Reports file.pdf` gives the tokens `UPLOAD`, `/REPORTS`, `FILE.PDF` and the reply `Ready to receive file for upload to /REPORTS/FILE.PDF` with `success` |
| `Webhook.MoveMissingDestinationExample` | supabase/functions/whatsapp-webhook/index.ts:68-70 | `MOVE /a.pdf` replies `Moved /A.PDF to undefined successfully.` with `success` |
| `Webhook.UnknownVerbExample` | supabase/functions/whatsapp-webhook/index.ts:80-82 | `FOO bar` gets the help text with `error` |
| `Webhook.RouteCommand` | supabase/functions/whatsapp-webhook/index.ts:56-89 | the switch and the catch, reassigning `response` and `status`, produce exactly the reference outcome `Dispatch` |
| `Webhook.LogStore.constructor` | supabase/functions/whatsapp-webhook/index.ts:41-50 | the store starts with no rows |
| `Webhook.LogStore.Insert` | supabase/functions/whatsapp-webhook/index.ts:41-50 | an accepted insert adds exactly the given row under a fresh id and returns that id; a refused one returns none and changes nothing |
| `Webhook.LogStore.UpdateById` | supabase/functions/whatsapp-webhook/index.ts:92-100 | only the row with that id changes, and only its status and details; a refused update or an unknown id changes nothing |
| `Webhook.PreflightResponse` | supabase/functions/whatsapp-webhook/index.ts:16-18 | status 200, exactly the two CORS headers, no body |
| `Webhook.TwimlBody` | supabase/functions/whatsapp-webhook/index.ts:103-106 | the text between the envelope's fixed head (up to `<Message>`) and fixed tail (from `</Message>`) is the reply, unescaped |
| `Webhook.TwimlResponse` | supabase/functions/whatsapp-webhook/index.ts:103-113 | status 200, the two CORS headers then `Content-Type: text/xml`, and a TwiML body whose text between the envelope's fixed head and tail is the reply |
| `Webhook.ErrorResponse` | supabase/functions/whatsapp-webhook/index.ts:114-123 | status 500, the two CORS headers then `Content-Type: application/json`, and a body the error message reads back from |
| `Webhook.ResponseShapes` | supabase/functions/whatsapp-webhook/index.ts:103-124 | every answer starts with the two CORS headers; preflight, TwiML and JSON error answers are told apart by body, status and content type; the text between the TwiML envelope's fixed head and tail is the reply, and the JSON body reads back as the message |
| `Webhook.FormField` | supabase/functions/whatsapp-webhook/index.ts:28-30 | a missing form field reads as `""` |
| `Webhook.ReadMessage` | supabase/functions/whatsapp-webhook/index.ts:27-31 | each of `Body`, `From`, `MessageSid` is the form field of that name, or `""` when it is absent |
| `Webhook.LoggedRows` | supabase/functions/whatsapp-webhook/index.ts:41-100 | a refused insert leaves the rows as they were; otherwise the row under the new id has the verb and the sender, then either the original body (update refused) or the dispatch status and reply |
| `Webhook.LoggedStatusPendingIff` | supabase/functions/whatsapp-webhook/index.ts:41-100 | once inserted, the message's row says `pending` exactly when the resolving update was refused: the status the update writes is never `pending` |
| `Webhook.LoggedRowsFrame` | supabase/functions/whatsapp-webhook/index.ts:41-100 | no row other than the one under the new id is added, removed or changed |
| `Webhook.ProcessMessage` | supabase/functions/whatsapp-webhook/index.ts:35-100 | the reply is the dispatch reply; at most one row is added, under a fresh id: none if the insert is refused, the `pending` row (verb, original body, sender) if only the update is refused, and otherwise that row resolved to the final status and the reply; no other row changes |
| `Webhook.HandleRequest` | supabase/functions/whatsapp-webhook/index.ts:15-125 | OPTIONS gets the preflight answer and touches no row; an unreadable request gets the JSON 500 answer and touches no row; otherwise the TwiML answer with the dispatch reply and the log rows of `ProcessMessage` |
| `Dashboard.ToCommandLog` | src/components/Dashboard.tsx:111-117 | every field is copied; a missing `details` becomes `''` |
| `Dashboard.ToCommandLogs` | src/components/Dashboard.tsx:111-117 | one record per row, same length and order, each the mapping of its row |
| `Dashboard.Filter` | src/components/Dashboard.tsx:121-122 | no more rows than given, each with the status asked for |
| `Dashboard.FilterKeepsExactlyMatching` | src/components/Dashboard.tsx:121-122 | the filter keeps every row with the status, as often as it occurs, and no other row |
| `Dashboard.TwoFiltersBounded` | src/components/Dashboard.tsx:119-123 | rows of two different statuses never outnumber all rows |
| `Dashboard.ComputeStats` | src/components/Dashboard.tsx:119-123 | `total` is the number of rows; `success` and `pending` count the rows with exactly that status; `success + pending <= total` |
| `Dashboard.FilterCountsMappedRecords` | src/components/Dashboard.tsx:111-122 | counting a status among the fetched rows equals counting it among the mapped records |
| `Dashboard.CountStatus` | src/components/Dashboard.tsx:121-122 | never more than all records; zero exactly when no record has the status, and all of them exactly when every record has it |
| `Dashboard.TwoCountsBounded` | src/components/Dashboard.tsx:119-123 | records of two different statuses never outnumber all records |
| `Dashboard.StatsOf` | src/components/Dashboard.tsx:119-123 | the counters of a list of records: its length and its `success` and `pending` counts, the two together never more than the length |
| `Dashboard.ComputeStatsMatchesRecords` | src/components/Dashboard.tsx:111-123 | the counters computed from the fetched rows are the counters of the records mapped from them |
| `Dashboard.DashboardState.constructor` | src/components/Dashboard.tsx:71-76 | the dashboard starts with no records and all three counters zero |
| `Dashboard.DashboardState.FetchLogs` | src/components/Dashboard.tsx:103-125 | with data and no error, the records and counters are replaced by the mapping and the counts; otherwise neither changes; the counters always describe the listed records |

## Left out

- `Text.Upper`: only ASCII letters are upper-cased. Full Unicode `toUpperCase` is not modelled. It can change a string's length (`ß` becomes `SS`), and it can change routing: JavaScript upper-cases `ı` to `I` and `ſ` to `S`, so `lıst` routes to LIST in the source, while the model answers it with the unknown-command text.
- `Webhook.TwimlBody`: the reply is embedded without XML escaping, as in the source, and `TwimlMessage` cuts the text out by position rather than parsing XML. A reply holding `<` or `&` (for example the one for `LIST /R&D`) is therefore not what an XML reader sees, and can make the document ill-formed; the model does not state what the messaging provider displays.
- `Json.EscapeChar`: strings are modelled as sequences of Unicode code points, not of UTF-16 code units. A lone surrogate (U+D800 to U+DFFF), which `JSON.stringify` writes as a `\udXXX` escape, cannot occur in the model, so that case of the escaping rule is not represented.
- `serve`, `req.formData()`, `Deno.env.get` and `createClient` are I/O and library setup. Their failures are folded into `Payload.Unreadable`, the one way to reach the outer catch.
- `console.log` and `console.error` are diagnostics with no effect on the result.
- The `timestamp` column is filled by the database, so the webhook's log rows do not carry one.
- The summariser's internals (the `ai-summarize` function) are not part of this model. Only its answer is modelled. A successful answer is assumed to carry a `summary`.
- `MessageSid` is read and never used, as in the source. There is no deduplication.
- Concurrent webhook calls, and a reader seeing a row while it is `pending`, are not modelled. Each call is one sequential step over the store.
- The dashboard query (`select`, `order by timestamp desc`, `limit 10`) and the realtime channel that re-runs `fetchLogs` are collaborators. The model starts from the query's answer.
- React's `setState` is asynchronous and batched. It is modelled as a direct assignment.
- A form field holding a file rather than text is not modelled.
- UI rendering is not modelled: the JSX, `getCommandIcon`, `getStatusBadge`, the configuration panel and the documentation page.
