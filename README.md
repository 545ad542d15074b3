# AI medical chatbot: a Dafny model of its decision logic

This project models the self-contained decision rules of a Next.js medical chatbot.
Supabase, the Python AI server, the zxcvbn estimator, PapaParse, `fetch` and the
browser's geolocation are external services. Each one is reduced to the outcome it
reports, which the model takes as a parameter. The model covers:

- **The mock chat endpoint**: keyword severity classification and its fixed answers.
- **The CSV seeding script**: turning CSV rows into hospital records, and the
  decision to clear the table and then insert.
- **The password-strength meter**: score bands, colours and the progress value.
- **The profile button**: avatar initials, and no render without a session.
- **Client state machines**:
  - the chat input box
  - the conversation sidebar
  - the log-in / sign-up form
  - the reset-password page
  - the hospital finder
- **API routes**: conversations, messages, title generation and hospitals. Each
  route's answer is modelled as a function of:
  - the parsed request body
  - the session user
  - the store's outcome

Modules by file:

| module | file |
|---|---|
| `Common` | JSON values, JavaScript truthiness, thrown errors and route responses (`common.dfy`) |
| `Text` | ASCII `toLowerCase`, `toUpperCase`, `trim`, `includes` and first-occurrence `replace` (`text.dfy`) |
| one module per source file | see the table below |

Client components that keep React state are classes:

- each `useState` field is a field of the class
- each handler is a method with `modifies this`
- the calls into the auth service, the HTTP requests and the navigations are appended to log fields; the geolocation request and the redirect options of the auth calls are not, as listed under "## Left out"

A handler that `await`s is split in two at the `await`:

- the first method runs up to the call and records the call as pending
- the second method takes the service's answer as a parameter

The input box, the auth form and the two pages keep a `Valid()` invariant, which every method requires and ensures. The sidebar has none: each of its handlers states its whole new `State()` in its `ensures`.

## Model

| member | source | states |
|---|---|---|
| ChatRoute.ContainsAny | src/app/api/chat/route.ts:20 | the `includes` chain is true iff some keyword occurs in the text as a substring |
| ChatRoute.Classify | src/app/api/chat/route.ts:13-26 | critical iff the lower-cased message contains a critical keyword; medium iff it has no critical keyword but a medium one; low otherwise |
| ChatRoute.AnswerFor | src/app/api/chat/route.ts:14-25 | every severity has a non-empty answer; AnswersDistinct shows the three differ |
| ChatRoute.AnswersDistinct | src/app/api/chat/route.ts:14-25 | each severity has its own fixed answer: two answers are equal iff their severities are |
| ChatRoute.ClassifyIgnoresCase | src/app/api/chat/route.ts:19 | upper- or lower-casing a message never changes its severity |
| ChatRoute.CriticalWins | src/app/api/chat/route.ts:20-25 | a message with both a critical and a medium keyword is critical |
| ChatRoute.Post | src/app/api/chat/route.ts:8-45 | status 200 iff the body has a string `message`, with the answer paired to its severity; otherwise 500 with the fixed error text |
| SeedCsv.Transform | scripts/seed-csv.mjs:41-57 | the output is no longer than the input; every record has a name, and its address and contact are either null or non-empty |
| SeedCsv.TransformRow | scripts/seed-csv.mjs:41-56 | a row is dropped iff hospital_name, longitude or latitude is missing or empty; the name is copied; address and contact become null when empty; location is `POINT(lon lat)` |
| SeedCsv.TransformAppend | scripts/seed-csv.mjs:41-57 | transforming a concatenation transforms each part in place |
| SeedCsv.CompleteIndices | scripts/seed-csv.mjs:43-46 | the positions of the complete rows: increasing, in range, complete, and covering every complete row |
| SeedCsv.TransformKeepsCompleteRowsInOrder | scripts/seed-csv.mjs:41-57 | the output has one record per complete row, the k-th built from the k-th complete row; its length is at most the input length |
| SeedCsv.TransformMembership | scripts/seed-csv.mjs:41-57 | a record is in the output iff some source row builds it |
| SeedCsv.SplitAtFirstSpace | scripts/seed-csv.mjs:54 | splitting `a + " " + b` at its first space, with no space in `a`, gives back `a` and `b` |
| SeedCsv.PointRoundTrip | scripts/seed-csv.mjs:54 | the location reads back as longitude first, then latitude |
| SeedCsv.Seed | scripts/seed-csv.mjs:15-90 | missing credentials, a missing file or no valid rows end the run with no table operation, and so does a client that cannot be created, which ends it as a failed operation; a table operation means the client was created; the clear comes first; the insert of the transformed rows happens only after a successful clear; seeding succeeds iff both succeed |
| PasswordStrength.Label | src/components/auth/PasswordStrength.tsx:15-29 | 0 and 1 are "Weak", 2 "Fair", 3 "Good", 4 "Strong", any other score "" (each an iff) |
| PasswordStrength.BarColor | src/components/auth/PasswordStrength.tsx:31-45 | 0 and 1 are error, 2 warning, 3 info, 4 success, any other score primary (each an iff) |
| PasswordStrength.LabelAndColorAgree | src/components/auth/PasswordStrength.tsx:15-45 | two scores get the same label iff they get the same colour |
| PasswordStrength.Progress | src/components/auth/PasswordStrength.tsx:51 | the value is 25 times the score, within 0..100 for scores 0..4 |
| PasswordStrength.ProgressMonotonic | src/components/auth/PasswordStrength.tsx:51 | a higher score never fills less of the bar |
| PasswordStrength.Caption | src/components/auth/PasswordStrength.tsx:55 | an empty password shows nothing, any other password shows the label; the caption is non-empty iff the password is non-empty and the score is 0..4 |
| ProfileButton.Initials | src/components/ProfileButton.tsx:19-22 | "U" for a missing or empty e-mail; otherwise the first one or two characters upper-cased, so the result has length 1 or 2 and no lower-case letter |
| ProfileButton.Render | src/components/ProfileButton.tsx:16 | nothing is rendered iff there is no session; otherwise it shows the initials and e-mail of the session |
| ChatInput.InputBox.constructor | src/components/ChatInput.tsx:15 | the input starts empty and nothing has been sent |
| ChatInput.InputBox.Change | src/components/ChatInput.tsx:45 | the input takes the new value, nothing is sent, and every message sent so far stays non-empty and trimmed |
| ChatInput.InputBox.Submit | src/components/ChatInput.tsx:19-25 | blank input sends nothing and is kept; other input sends its trimmed text once and then clears; every message ever sent is non-empty and trimmed |
| ChatInput.InputBox.KeyDown | src/components/ChatInput.tsx:27-33 | the default is prevented iff the key is Enter without Shift, which then submits; other keys change nothing |
| ChatInput.InputBox.SendDisabled | src/components/ChatInput.tsx:52 | the send button is disabled iff the input is blank |
| ChatHistorySidebar.FindIndex | src/components/ChatHistorySidebar.tsx:42 | the first position with the id, or -1 iff there is none |
| ChatHistorySidebar.Find | src/components/ChatHistorySidebar.tsx:42 | no result iff no conversation has the id; otherwise the first such conversation |
| ChatHistorySidebar.Retitled | src/components/ChatHistorySidebar.tsx:127-129 | same length and order; exactly the entries with the id get the new title, and the others are unchanged |
| ChatHistorySidebar.RetitledFind | src/components/ChatHistorySidebar.tsx:127-129 | after a rename, the conversation is found under its id with the new title |
| ChatHistorySidebar.RetitledIdempotent | src/components/ChatHistorySidebar.tsx:127-129 | renaming twice to the same title is renaming once |
| ChatHistorySidebar.Sidebar.constructor | src/components/ChatHistorySidebar.tsx:28-38 | the initial state: an empty list, nothing selected, open or being edited |
| ChatHistorySidebar.Sidebar.ChatToDeleteTitle | src/components/ChatHistorySidebar.tsx:40-43 | null without a selection; otherwise the non-empty title of the first conversation with the selected id, or null when there is none or its title is empty |
| ChatHistorySidebar.Sidebar.MenuClick | src/components/ChatHistorySidebar.tsx:46-50 | opens the menu and selects the conversation; nothing else changes |
| ChatHistorySidebar.Sidebar.MenuClose | src/components/ChatHistorySidebar.tsx:52-54 | closes the menu; nothing else changes |
| ChatHistorySidebar.Sidebar.DeleteClick | src/components/ChatHistorySidebar.tsx:57-61 | opens the confirmation dialog and closes the menu |
| ChatHistorySidebar.Sidebar.CancelDelete | src/components/ChatHistorySidebar.tsx:262 | closes the dialog without a request |
| ChatHistorySidebar.Sidebar.ConfirmDelete | src/components/ChatHistorySidebar.tsx:65-88 | with no selection nothing changes; otherwise one DELETE; the parent is told of the id only when the response is ok; the dialog closes and the selection clears either way |
| ChatHistorySidebar.Sidebar.Rename | src/components/ChatHistorySidebar.tsx:91-99 | with no selection nothing changes, not even the menu; otherwise editing starts with the current title if the conversation is listed, and the menu closes |
| ChatHistorySidebar.Sidebar.TitleChange | src/components/ChatHistorySidebar.tsx:103-105 | the edited title takes the new value |
| ChatHistorySidebar.Sidebar.TitleBlur | src/components/ChatHistorySidebar.tsx:107-111 | editing ends and the edited title is cleared |
| ChatHistorySidebar.Sidebar.TitleKeyDown | src/components/ChatHistorySidebar.tsx:113-142 | Enter with no editing id or a blank title changes nothing; otherwise one PATCH with the trimmed title, the list retitled only on success, and editing ended either way; Escape ends editing; other keys change nothing |
| ChatHistorySidebar.Sidebar.LoadConversations | src/components/ChatHistorySidebar.tsx:145-170 | without a session the list empties and nothing is fetched; with one, a fetched list replaces the old one, a failed fetch keeps it, and loading ends false |
| AuthForm.Form.constructor | src/components/auth/AuthForm.tsx:23-32 | the initial state: empty fields, no error, not loading, no calls |
| AuthForm.Form.Edit | src/components/auth/AuthForm.tsx:23-28 | the inputs take their new values; nothing else changes |
| AuthForm.Form.SubmitEmail | src/components/auth/AuthForm.tsx:41-65 | runs only while the sign-up notice, which replaces the form, is not shown; sign-up without the terms sets only the terms error, before any other check; otherwise the error clears and loading starts; a password mismatch then ends with the mismatch error, loading false and no call; otherwise exactly one sign-up or log-in call is made |
| AuthForm.Form.EmailAuthSettled | src/components/auth/AuthForm.tsx:67-84 | an error shows the service's message and no notice; a sign-up success shows the notice without navigating; a log-in success navigates to "/"; loading ends false in every case |
| AuthForm.Form.GoogleAuth | src/components/auth/AuthForm.tsx:88-96 | runs only while the sign-up notice is not shown; clears the error, starts loading and makes one Google sign-in call |
| AuthForm.Form.GoogleAuthSettled | src/components/auth/AuthForm.tsx:97-100 | an error shows its message and ends loading; on success loading stays true |
| AuthForm.SignUpWithoutTerms | src/components/auth/AuthForm.tsx:43-46 | a sign-up without the terms never calls the auth service, shows the terms error and is not loading |
| AuthForm.SuccessfulLogin | src/components/auth/AuthForm.tsx:75-84 | an accepted log-in makes one password sign-in call and one navigation to "/", then stops loading |
| ResetPassword.Page.constructor | src/app/reset-password/page.tsx:16-20 | the initial state: empty fields, no error, not loading, no success |
| ResetPassword.Page.Edit | src/app/reset-password/page.tsx:16-17 | the two fields take their new values |
| ResetPassword.Page.Submit | src/app/reset-password/page.tsx:24-34 | only before a success, which replaces the form by the alert; a mismatch sets only the mismatch error, with loading unchanged and no update; a match clears the error, starts loading and requests one password update |
| ResetPassword.Page.UpdateSettled | src/app/reset-password/page.tsx:36-42 | an error shows its message and leaves success false; a success sets success and schedules the redirect; loading ends false either way |
| ResetPassword.MismatchedReset | src/app/reset-password/page.tsx:26-29 | different passwords never reach the auth service and leave loading off |
| HospitalsPage.Page.constructor | src/app/hospitals/page.tsx:13-15 | idle, with no hospitals and no error |
| HospitalsPage.Page.Mount | src/app/hospitals/page.tsx:42-65 | without geolocation: permission_denied with the fixed message and no request; otherwise loading while the position is requested |
| HospitalsPage.Page.PositionFound | src/app/hospitals/page.tsx:18-26 | loading with the error cleared, and one request with the position |
| HospitalsPage.Page.PositionFailed | src/app/hospitals/page.tsx:59-63 | permission_denied with the fixed message |
| HospitalsPage.Page.FetchSettled | src/app/hospitals/page.tsx:28-38 | an ok response replaces the hospitals and succeeds; a non-ok response or an exception sets the message, moves to error and keeps the hospitals |
| HospitalsPage.Page.RenderContent | src/app/hospitals/page.tsx:70-103 | cards iff success, showing the hospitals; nothing iff idle; a spinner iff loading; an error or warning alert with the message iff error or permission_denied |
| HospitalsPage.FindNearby | src/app/hospitals/page.tsx:18-65 | a granted position and an ok response end with the returned hospitals shown as cards, after exactly one request |
| HospitalsPage.NoGeolocationSupport | src/app/hospitals/page.tsx:44-48 | without geolocation support: the warning with its message, and no request |
| ConversationsRoute.OwnedBy | src/app/api/conversations/route.ts:19 | a row is kept iff it belongs to the user |
| ConversationsRoute.InsertByDate | src/app/api/conversations/route.ts:20 | the result holds the same rows plus the inserted one |
| ConversationsRoute.InsertBounded | src/app/api/conversations/route.ts:20 | inserting a row into rows that are no newer than a bound keeps every row within that bound |
| ConversationsRoute.InsertKeepsNewestFirst | src/app/api/conversations/route.ts:20 | inserting into a newest-first sequence keeps it newest first |
| ConversationsRoute.SortNewestFirst | src/app/api/conversations/route.ts:20 | the result is a permutation of the input, ordered by creation time descending |
| ConversationsRoute.Summaries | src/app/api/conversations/route.ts:18 | one `{id, title}` per row, in order |
| ConversationsRoute.ListQuery | src/app/api/conversations/route.ts:16-20 | exactly the user's rows, with multiplicity, newest first |
| ConversationsRoute.Get | src/app/api/conversations/route.ts:8-32 | no session gives an empty list with 200; a store error gives 500 with its message; otherwise 200 with the user's list |
| ConversationsRoute.ListingIsOwned | src/app/api/conversations/route.ts:16-26 | every listed item is the summary of a row the session user owns |
| ConversationsRoute.ListingCountsOwnedRows | src/app/api/conversations/route.ts:16-26 | the listing has exactly one item per owned row |
| ConversationsRoute.CreateConversation | src/app/api/conversations/route.ts:34-60 | an unparsable body escapes the handler; no session gives 401 and no insert; a store error gives 500 and no insert; otherwise the row with the body's title and the session user as owner is inserted and returned |
| ConversationsRoute.NewestHeadsList | src/app/api/conversations/route.ts:20 | in a newest-first list, a row strictly newer than all the others comes first |
| ConversationsRoute.ClientOwnerIgnored | src/app/api/conversations/route.ts:36-46 | the outcome does not depend on any owner the client sends |
| ConversationsRoute.CreatedIsListed | src/app/api/conversations/route.ts:16-54 | a conversation newer than every other row heads its owner's next listing |
| MessagesRoute.InsertData | src/app/api/messages/route.ts:21-27 | the three fields are copied, the owner is the session user, and the flag is true iff the sent value is truthy |
| MessagesRoute.StoreMessage | src/app/api/messages/route.ts:6-45 | an unreadable body escapes the handler; no session gives 401 and no insert; an insert error gives 500 with its message; otherwise one row is appended and `{success: true}` returned |
| MessagesRoute.StoredRowsBelongToSession | src/app/api/messages/route.ts:15-39 | the table grows iff the answer is 200, and only by one row owned by the session user |
| MessagesRoute.EmergencyFlagCoercion | src/app/api/messages/route.ts:26 | absent, null, false, 0 and "" give false; true and any non-empty string, "false" included, give true |
| MessagesRoute.ClientOwnerIgnored | src/app/api/messages/route.ts:9-25 | the stored row does not depend on any owner the client sends |
| TitleRoute.AiEndpoint | src/app/api/title/route.ts:20-21 | the URL always ends in "/generate-title"; a configured endpoint loses at most the four characters of one "/ask" |
| TitleRoute.AiEndpointShape | src/app/api/title/route.ts:20-21 | the endpoint is the configured one with its first "/ask" removed, plus "/generate-title"; without "/ask" it is kept whole |
| TitleRoute.AskOnlyAtJoin | src/app/api/title/route.ts:20 | appending "/ask" to a text without it creates no earlier occurrence |
| TitleRoute.AiEndpointOfAskUrl | src/app/api/title/route.ts:20-21 | an endpoint of the form `base + "/ask"` becomes `base + "/generate-title"` |
| TitleRoute.Retitle | src/app/api/title/route.ts:47-51 | same length; only rows with both the id and the session user get the new title |
| TitleRoute.GenerateTitle | src/app/api/title/route.ts:6-67 | an unparsable body gives the fixed 500; missing fields give 400 before any call; then exactly one AI call; a failed call, a non-ok answer or an empty title gives the fixed 500; then 401 without a session; an update error gives the fixed 500; otherwise 200 with the AI title and the owned row retitled |
| TitleRoute.OnlyOwnedRowRetitled | src/app/api/title/route.ts:47-51 | rows of other users, and rows with another id, never change |
| TitleRoute.SignedOutStillCallsAi | src/app/api/title/route.ts:24-45 | a signed-out request with both fields still costs one AI call, changes nothing and ends in 401 or 500 |
| TitleRoute.SuccessStoresTitle | src/app/api/title/route.ts:37-58 | a 200 implies a truthy AI title, carries it, and leaves it on every owned row with that id |
| HospitalsRoute.Arguments | src/app/api/hospitals/route.ts:26-30 | the coordinates are passed unchanged, and a falsy search term becomes null |
| HospitalsRoute.FindHospitals | src/app/api/hospitals/route.ts:9-44 | an unparsable body escapes the handler; a falsy coordinate gives 400 and no call; otherwise one call, whose rows are returned unchanged or whose error gives 500 with its message |
| HospitalsRoute.CalledIffValid | src/app/api/hospitals/route.ts:16-30 | the database is called iff the answer is a JSON response other than 400 |
| HospitalsRoute.ZeroCoordinateRejected | src/app/api/hospitals/route.ts:16 | latitude 0 or longitude 0 is rejected like a missing value; a non-empty string coordinate passes |
| HospitalsRoute.EmptySearchIsNull | src/app/api/hospitals/route.ts:29 | a missing or empty search term reaches the database as null |
| Text.ToLower | src/app/api/chat/route.ts:19 | the result has the input's length and lower-cases each character; ToLowerIdempotent shows a second pass changes nothing |
| Text.ToUpper | src/components/ProfileButton.tsx:21 | the result has the input's length and upper-cases each character; ToLowerOfToUpper shows that lower-casing the upper-cased text is lower-casing the text |
| Text.ToLowerIdempotent | src/app/api/chat/route.ts:19 | lower-casing twice is lower-casing once |
| Text.ToLowerOfToUpper | src/app/api/chat/route.ts:19 | lower-casing after upper-casing is lower-casing alone |
| Text.Contains | src/app/api/chat/route.ts:20 | the empty string is always contained, and a contained string is no longer than the text; ContainsIff ties it to occurrence at an index |
| Text.ContainsIff | src/app/api/chat/route.ts:20 | the scanning `includes` is true iff the substring occurs at some index |
| Text.Trim | src/components/ChatInput.tsx:21 | the trimmed text is empty iff the input is blank, and otherwise has no whitespace at either end |
| Text.TrimIdempotent | src/components/ChatInput.tsx:21-22 | trimming twice is trimming once |
| Text.ReplaceFirst | src/app/api/title/route.ts:20 | the length is unchanged, or changed by exactly one replacement of the pattern; ReplaceFirstAt and ReplaceFirstAbsent say which part changes |
| Text.ReplaceFirstAt | src/app/api/title/route.ts:20 | `replace` with a string pattern replaces exactly the first occurrence |
| Text.ReplaceFirstAbsent | src/app/api/title/route.ts:20 | without an occurrence, nothing changes |
| Common.Truthy | src/app/api/title/route.ts:14 | `undefined` and `null` are falsy; arrays and objects are truthy |
| Common.OrElse | src/app/api/hospitals/route.ts:29 | the result is the value or the fallback, and it is truthy iff one of the two is |
| Common.CaughtMessage | src/app/api/conversations/route.ts:29 | an `Error` gives its own message; anything else thrown gives the fixed non-empty unknown-error text |

## Left out

- External services are parameters. These are Supabase auth, tables and the `get_hospitals` RPC with its ranking, the Python AI server, `fetch`, `fs`, zxcvbn, PapaParse and `navigator.geolocation`. Row-level security is not modelled.
- The string primitives cover ASCII only. Case mapping touches only A-Z and a-z, and `trim` removes only the six ASCII whitespace characters. JavaScript's full Unicode behaviour is not modelled.
- Async interleaving is not modelled. Each handler runs its steps in one piece between its awaits. The same goes for React's batching of state updates, effect scheduling and stale closures. The 3-second redirect after a password reset is the `redirectScheduled` flag. The simulated one-second delay in the chat endpoint is dropped.
- The sidebar's handlers run whole, with the request's outcome as a parameter. Their calls are not split at the `await` the way the form handlers are.
- The chat-session page, with its optimistic messages and simulated streaming, is not part of this model.
- The per-conversation route, src/app/api/conversations/[conversationId]/route.ts, is not part of this model. It serves the sidebar's DELETE and PATCH requests, whose outcomes appear here only as parameters.
- The auth plumbing is not part of this model. That is the callback and confirm routes, the forgot-password and profile pages, and the auth context.
- scripts/seed.mjs, the deprecated script with hard-coded data, is not part of this model.
- HospitalCard's distance formatting and maps link are left out: they rely on floating-point `toFixed` and `encodeURIComponent`.
- Presentation is not modelled. This covers page layout, icons, the password visibility toggles and the static pages.
- ConversationsRoute.ListQuery: rows with the same `created_at` are ordered in one fixed way, because the database sets no order among them.
- ConversationsRoute.CreateConversation: the store-assigned columns are only an id and a creation time. Any other defaults the table has are not modelled.
- The request body's JSON parsing is reduced to the fields each route reads. A body field that is an array or an object is carried without its contents, since no route looks inside it.
- The `/api/chat` answer is `{answer, severity}`, with severity low, medium or critical; there is no emergency flag in it.
- `/api/title` takes a conversation's title from the AI server's `/generate-title`, not from the words of the message; the title the AI returns is a parameter of the model.
- HospitalsPage.Page.Mount: the `navigator.geolocation.getCurrentPosition` request is the `locating` flag, not an entry in a call log; the browser answers it through PositionFound or PositionFailed.
- AuthForm.Form.SubmitEmail and AuthForm.Form.GoogleAuth: the recorded sign-up and Google sign-in calls leave out their `emailRedirectTo` and `redirectTo` options, which are built from the browser's `window.location.origin`.
- TitleRoute.GenerateTitle: the AI outcome is a parameter independent of the endpoint, so the model also lets the call succeed for the "undefined/generate-title" URL of an unset variable, which a server-side `fetch` would reject into the fixed 500.
