# Nexus Core, modelled in Dafny

Nexus Core is a chatbot marketplace. Its Next.js front end lists example
bots, signs users in with e-mail and password or through Kakao and Google,
guards the pages that need a signed-in user, and calls a FastAPI back end
with the user's access token. The back end lists the active bots, lets an
administrator create, update and soft-delete them, seeds the initial bot,
streams chat answers as server-sent events, stores uploaded files, answers
the KakaoTalk callback with an echo, and answers questions over a bot's
documents through Gemini or OpenAI file search.

This project models those parts and proves properties of them:

- Front end:
  - `route_guard.dfy`: the edge route guard, with its cookie refresh.
  - `auth_store.dfy`: the authentication store, a class whose invariant every action keeps.
  - `oauth_callback.dfy`: the OAuth callback route.
  - `login_form.dfy`, `header.dfy`: the login form and the header, as classes over the store and a router (`navigation.dfy`).
  - `landing.dfy`: the landing page's category filter.
  - `api_client.dfy`: the HTTP client's two hooks.
- Back end:
  - `bot_records.dfy`: the bot table shared by the endpoints.
  - `bot_catalogue.dfy`, `admin.dfy`: the listing and admin endpoints.
  - `seeding.dfy`: the seeding script.
  - `chat.dfy`: the chat endpoint and its event stream.
  - `local_storage.dfy`: the local file storage.
  - `kakao.dfy`: the KakaoTalk callback.
  - `rag_factory.dfy`: the retrieval service factory.
  - `gemini_rag.dfy`, `openai_rag.dfy`: the two retrieval services.
- Shared: `wrappers.dfy`, `text.dfy`, `json.dfy`, `seqs.dfy` and `identity.dfy` hold the string, JSON and sequence semantics of the host languages and the provider's session type.

Every call to an outside service becomes a parameter of the operation that
makes it: the authentication provider, the database clock, the language
models, the Gemini and OpenAI file-search APIs and the random identifier.
The value a call would return is passed in, with `None` where the call
raises. The database is a map from key to row.

## Model

| member | source | states |
|---|---|---|
| RouteGuard.IsProtected | frontend-client/src/middleware.ts:11-51 | exactly the paths starting with "/mypage" or "/chat"; the home page "/" is not protected |
| RouteGuard.IsAuthPage | frontend-client/src/middleware.ts:59 | exactly "/login" and "/signup", and neither is protected |
| RouteGuard.NamesSplit | frontend-client/src/middleware.ts:54 | the names of a query are its first name and the names of the rest |
| RouteGuard.RemoveParam | frontend-client/src/middleware.ts:54 | after removing a name, the names are the old ones without it, and every other name reads back its old first value |
| RouteGuard.SetParam | frontend-client/src/middleware.ts:54 | `searchParams.set`: the names are the old names plus the one set, and every pair under that name carries the new value |
| RouteGuard.SetParamGet | frontend-client/src/middleware.ts:54 | after `searchParams.set`, the name reads back as the value set, and every other name is unchanged |
| RouteGuard.Decide | frontend-client/src/middleware.ts:51-65 | redirect to login exactly when no user and the path has a protected prefix; redirect home exactly when a user is on exactly `/login` or `/signup`; the targets keep the request URL with the new path, and the login target gets `next` = the path |
| RouteGuard.AnonymousProtectedGoesToLogin | frontend-client/src/middleware.ts:51-56 | an anonymous request for a protected path goes to `/login` on the same origin, with `next` reading back as the requested path |
| RouteGuard.PrefixMatchingIsLoose | frontend-client/src/middleware.ts:11-51 | prefix matching guards `/chatroom` and `/mypage-x` too |
| RouteGuard.SignedInAuthPageGoesHome | frontend-client/src/middleware.ts:59-63 | a signed-in user on `/login` or `/signup` is sent to `/`; `/login/extra` is not an auth page |
| RouteGuard.OtherRequestsPassThrough | frontend-client/src/middleware.ts:51-65 | a request matched by neither rule is passed on |
| RouteGuard.AnonymousOnLoginPassesThrough | frontend-client/src/middleware.ts:51-65 | an anonymous visitor on the login page is not redirected (no loop) |
| RouteGuard.RequestCookieLastWrite | frontend-client/src/middleware.ts:28-30 | each cookie name of a batch ends up in the request jar with its last write |
| RouteGuard.RequestCookieUntouched | frontend-client/src/middleware.ts:28-30 | a cookie the batch does not write keeps its value or stays absent |
| RouteGuard.ResponseCookieLastWrite | frontend-client/src/middleware.ts:31-37 | the rebuilt response carries each name of the batch with the value and options of its last write |
| RouteGuard.ResponseCookieUntouched | frontend-client/src/middleware.ts:31-37 | the rebuilt response carries no cookie the batch does not write |
| RouteGuard.CookieBridge.constructor | frontend-client/src/middleware.ts:14-16 | the first pass-through response forwards the request cookies as they are and carries none of its own |
| RouteGuard.CookieBridge.SetAll | frontend-client/src/middleware.ts:26-38 | the request jar is the old jar with the batch written in order, and the response is rebuilt from it carrying exactly the batch's cookies |
| RouteGuard.Middleware | frontend-client/src/middleware.ts:13-66 | the forwarded cookies are every batch written in order; the answer is the redirect of the policy, or the response of the latest `setAll` |
| RouteGuard.PassThroughCarriesLatestBatch | frontend-client/src/middleware.ts:26-65 | a pass-through answer carries the latest batch's last writes; a redirect carries no cookies |
| Navigation.Router.Push | frontend-client/src/components/auth/LoginForm.tsx:46 | the path is appended to the history and nothing else changes |
| Navigation.Router.Refresh | frontend-client/src/components/auth/LoginForm.tsx:47 | one more refresh, the history unchanged |
| AuthStore.ConsistentIffSynced | frontend-client/src/store/useAuthStore.ts:43-81 | a state is consistent (user is the session's user, signed in iff there is a user) exactly when it is what one session write produces |
| AuthStore.SyncedIdempotent | frontend-client/src/store/useAuthStore.ts:76-82 | writing the same session twice is writing it once |
| AuthStore.UserlessSessionIsSignedOut | frontend-client/src/store/useAuthStore.ts:44-47 | a session without a user is kept but signs nobody in |
| AuthStore.AuthState.constructor | frontend-client/src/store/useAuthStore.ts:25-29 | nobody signed in, loading, no listener, and the invariant holds |
| AuthStore.AuthState.Initialize | frontend-client/src/store/useAuthStore.ts:35-58 | the state is written from the current session with loading off, one more listener is registered, and the invariant holds |
| AuthStore.AuthState.OnAuthStateChange | frontend-client/src/store/useAuthStore.ts:51-57 | with a listener registered the state follows the changed session and keeps the loading flag; without one nothing changes |
| AuthStore.AuthState.SignOut | frontend-client/src/store/useAuthStore.ts:63-71 | user and session are cleared, signed out, the loading flag kept |
| AuthStore.AuthState.SetSession | frontend-client/src/store/useAuthStore.ts:76-82 | the state follows the given session, the loading flag kept |
| OAuthCallback.Callback | frontend-client/src/app/auth/callback/route.ts:10-27 | the exchange is attempted exactly for a non-empty code; success goes to origin + `next` (default `/`), every other path to the failure page |
| OAuthCallback.CallbackKeepsOriginText | frontend-client/src/app/auth/callback/route.ts:21-26 | the location always begins with the origin's text |
| OAuthCallback.EmptyNextLandsOnOrigin | frontend-client/src/app/auth/callback/route.ts:14-21 | an empty `next` is kept, so a successful sign-in lands on the bare origin |
| OAuthCallback.PathKeepsHost | frontend-client/src/app/auth/callback/route.ts:21-26 | an origin followed by a path that starts with `/` keeps the origin's host |
| OAuthCallback.UserInfoMovesHost | frontend-client/src/app/auth/callback/route.ts:21 | text of the form `user@host` after the scheme makes `host` the host |
| OAuthCallback.OpenRedirectAsWritten | frontend-client/src/app/auth/callback/route.ts:14-21 | for every well-formed origin, `next=@<host>` with a valid code lands the browser on that other host (for example `https://app.example` with `next=@evil.example` lands on `evil.example`) |
| OAuthCallback.SafeNextPath | frontend-client/src/app/auth/callback/route.ts:14 | the target is a path on this site: `next` when it starts with `/`, else `/` |
| OAuthCallback.SafeCallback | frontend-client/src/app/auth/callback/route.ts:10-27 | as `Callback`, with the checked `next` |
| OAuthCallback.SafeCallbackStaysOnHost | frontend-client/src/app/auth/callback/route.ts:10-27 | with the check, the browser never leaves the origin's host |
| LoginForm.OAuthFailure | frontend-client/src/components/auth/LoginForm.tsx:64 | the message starts with the provider name and differs from the credentials message |
| LoginForm.OAuthFailuresDiffer | frontend-client/src/components/auth/LoginForm.tsx:64 | the two providers' messages differ |
| LoginForm.RejectedSubmit | frontend-client/src/components/auth/LoginForm.tsx:29-44 | a rejected password sign-in ends enabled with exactly the credentials message, social state untouched |
| LoginForm.AcceptedSubmit | frontend-client/src/components/auth/LoginForm.tsx:29-48 | an accepted password sign-in stays disabled with no error |
| LoginForm.RejectedOAuth | frontend-client/src/components/auth/LoginForm.tsx:51-66 | a rejected social sign-in re-enables the social buttons and names the provider |
| LoginForm.IndependentLocks | frontend-client/src/components/auth/LoginForm.tsx:104-195 | a pending password sign-in does not disable the social buttons, nor the other way round |
| LoginForm.CallbackAddress | frontend-client/src/components/auth/LoginForm.tsx:59 | the callback address starts with the page's origin |
| LoginForm.Form.constructor | frontend-client/src/components/auth/LoginForm.tsx:20-26 | not loading, no social sign-in pending, no error |
| LoginForm.Form.BeginSubmit | frontend-client/src/components/auth/LoginForm.tsx:29-32 | loading on, error cleared |
| LoginForm.Form.FinishSubmit | frontend-client/src/components/auth/LoginForm.tsx:40-47 | a rejection shows the message and stops loading without navigating; success pushes `/` and refreshes |
| LoginForm.Form.HandleSubmit | frontend-client/src/components/auth/LoginForm.tsx:29-48 | the form ends as the two steps say, and `/` is pushed exactly on success |
| LoginForm.Form.BeginOAuth | frontend-client/src/components/auth/LoginForm.tsx:51-61 | the provider is marked pending, the error cleared, and the callback address is handed over |
| LoginForm.Form.FinishOAuth | frontend-client/src/components/auth/LoginForm.tsx:63-66 | a rejection shows the provider's message and clears the pending provider; success leaves the form |
| LoginForm.Form.HandleOAuthLogin | frontend-client/src/components/auth/LoginForm.tsx:51-67 | the form ends as the two steps say and the callback address is the origin's |
| Header.DisplayName | frontend-client/src/components/layout/Header.tsx:73-75 | never empty; a non-empty metadata name wins; otherwise anything but the fallback is a non-empty, `@`-free prefix of the e-mail |
| Header.DisplayNameFromEmail | frontend-client/src/components/layout/Header.tsx:73-75 | without a name the local part of the e-mail is shown, and an address starting with `@` gives the fallback |
| Header.ViewOf | frontend-client/src/components/layout/Header.tsx:43-122 | signed-in actions exactly when loaded and authenticated, visitor actions exactly when loaded and not, nothing while loading |
| Header.Links | frontend-client/src/components/layout/Header.tsx:52-119 | the login link is shown exactly to visitors |
| Header.SignedInNamesUser | frontend-client/src/components/layout/Header.tsx:43-75 | in a consistent store a signed-in header names the session's own user |
| Header.SignedOutShowsLogin | frontend-client/src/components/layout/Header.tsx:88-122 | after signing out the login link is offered, unless still loading |
| Header.HeaderComponent.Mount | frontend-client/src/components/layout/Header.tsx:16-18 | mounting initialises the store from the provider's session and registers a listener |
| Header.HeaderComponent.HandleSignOut | frontend-client/src/components/layout/Header.tsx:21-25 | the store is signed out, `/` is pushed and the page refreshed |
| Landing.ByCategory | frontend-client/src/app/page.tsx:81 | exactly the bots of that category, each as often as in the list, in their original order |
| Landing.FilteredBots | frontend-client/src/app/page.tsx:79-81 | "전체" shows every bot; any other category shows, in order and with their multiplicity, exactly the bots carrying it |
| Landing.Title | frontend-client/src/app/page.tsx:98 | "인기 챗봇" for "전체", otherwise the category followed by " 챗봇" |
| Landing.UncarriedCategoryIsEmpty | frontend-client/src/app/page.tsx:11-81 | a category no example bot carries shows an empty grid |
| Landing.AnalysisIsEmpty | frontend-client/src/app/page.tsx:11-98 | "분석" shows no bot, under the title "분석 챗봇" |
| Landing.OnlyCarrierShows | frontend-client/src/app/page.tsx:79-81 | a category that exactly one example bot carries shows that bot and nothing else |
| Landing.CodingShowsOne | frontend-client/src/app/page.tsx:11-81 | "코딩" shows exactly the second example bot |
| ApiClient.BaseUrl | frontend-client/src/lib/api.ts:10 | the configured address when set and non-empty, else the local default; never empty |
| ApiClient.Authorized | frontend-client/src/lib/api.ts:20-31 | with a browser and a non-empty token, `Authorization` is `Bearer ` followed by exactly the token; otherwise the headers are unchanged; no other header is touched |
| ApiClient.RequestKeepsContentType | frontend-client/src/lib/api.ts:9-31 | a request starting from the client's default headers keeps `Content-Type: application/json` and gains at most `Authorization` |
| ApiClient.AuthorizeTwice | frontend-client/src/lib/api.ts:27-28 | a second session's token replaces the first; the credential is never doubled |
| ApiClient.OnRequest | frontend-client/src/lib/api.ts:18-32 | the same configuration is passed on, its headers authorised as above |
| ApiClient.OnRequestError | frontend-client/src/lib/api.ts:33-35 | the error is re-raised unchanged |
| ApiClient.OnResponse | frontend-client/src/lib/api.ts:40 | the response is passed on unchanged |
| ApiClient.OnResponseError | frontend-client/src/lib/api.ts:41-46 | the error is re-raised; the browser goes to `/login` exactly on a 401, and is otherwise left where it was |
| BotRecords.ToResponse | app/api/v1/endpoints/bots.py:38 | a row validates exactly when its tags are not null, and the response keeps its id, name and tags |
| BotCatalogue.SelectBots | app/api/v1/endpoints/bots.py:29-36 | in query order and with their multiplicity, exactly the active rows, and with a non-empty tag only those carrying it |
| BotCatalogue.Responses | app/api/v1/endpoints/bots.py:38 | all rows validate or the whole list fails; on success one response per row, in order |
| BotCatalogue.ListBots | app/api/v1/endpoints/bots.py:20-40 | the total is the number of responses, each the response of the selected row at its position; it fails exactly when a selected row has null tags |
| BotCatalogue.ListedBotsAreActive | app/api/v1/endpoints/bots.py:29-38 | every listed bot comes from an active row |
| BotCatalogue.TagFilterNeverFails | app/api/v1/endpoints/bots.py:35-38 | with a tag filter the listing always succeeds |
| BotCatalogue.NoTagListsAllActive | app/api/v1/endpoints/bots.py:29-35 | a missing or empty tag lists every active row |
| Admin.CreatedEchoesRequest | app/api/v1/endpoints/admin.py:28-34 | the creation response carries back every public field of the request, and the new row is active |
| Admin.AssignAllAppend | app/api/v1/endpoints/admin.py:52-53 | assigning two lists one after the other is assigning their concatenation |
| Admin.EntryEffect | app/api/v1/endpoints/admin.py:51-53 | an unset field assigns nothing; a null or a value assigns exactly that |
| Admin.UpdateDataFieldwise | app/api/v1/endpoints/admin.py:51-53 | the `setattr` loop over the dumped fields is the ten fields' assignments in declaration order |
| Admin.FieldwiseIsPatch | app/api/v1/endpoints/admin.py:51-53 | the field-by-field assignments give the field-wise update: each sent field takes its value, the others keep theirs |
| Admin.UpdateDataIsPatch | app/api/v1/endpoints/admin.py:50-53 | the loop over the sent fields is exactly the partial update |
| Admin.Updated | app/api/v1/endpoints/admin.py:50-55 | the stored row is the `setattr` loop over the sent fields, then the new modification time |
| Admin.Deactivated | app/api/v1/endpoints/admin.py:76-77 | the row is inactive with the new modification time, and nothing else about it changes |
| Admin.EmptyUpdateTouchesOnlyTime | app/api/v1/endpoints/admin.py:50-55 | an update that sets nothing only moves the modification time |
| Admin.UpdateStable | app/api/v1/endpoints/admin.py:50-55 | the key and the creation time never change, and repeating an update adds nothing |
| Admin.DeactivatedIsNotListed | app/api/v1/endpoints/admin.py:76-77 | a deactivated row is never listed, whatever the tag |
| Admin.DeleteThenRestore | app/api/v1/endpoints/admin.py:37-77 | deleting twice is deleting once, and an update setting `is_active` brings the row back |
| Admin.CreateBot | app/api/v1/endpoints/admin.py:22-34 | the new row is stored under the next, unused key with `is_active` set; nothing else changes; the response is its validation |
| Admin.UpdateBot | app/api/v1/endpoints/admin.py:37-61 | a missing key is 404 with no change; a storable update whose tags validate replaces the row by the updated row and returns it; anything else is a server error and rolls back |
| Admin.DeleteBot | app/api/v1/endpoints/admin.py:64-80 | a missing key is 404 with no change; otherwise the row stays, inactive, with the new modification time |
| Seeding.AddNamed | backend/scripts/seed_bots.py:55-65 | adding a row under a fresh key adds that key to its name's matches and to no other name's |
| Seeding.SeededShape | backend/scripts/seed_bots.py:53-66 | `Seeded`, a successful run, keeps every existing row, keeps the table well keyed, and ends with exactly one row per seed name |
| Seeding.InsertedShape | backend/scripts/seed_bots.py:64-65 | adding one seed row under the next key keeps the table well keyed, keeps every row, and adds the new key to that name's keys only |
| Seeding.SeededKeeps | backend/scripts/seed_bots.py:53-66 | a successful run keeps every existing row and the table well keyed, and leaves a name that had one row with that row only |
| Seeding.SeededCovers | backend/scripts/seed_bots.py:53-66 | after a successful run every seed name has exactly one row |
| Seeding.SeedingTwiceAddsNothing | backend/scripts/seed_bots.py:53-68 | running the seeding again over its own result changes nothing |
| Seeding.AllPresentIsNoOp | backend/scripts/seed_bots.py:58-62 | when every seed name is already present once, the run adds nothing |
| Seeding.SeedDatabase | backend/scripts/seed_bots.py:44-68 | the run commits exactly when no seed name has two rows, and then the table is the seeded table; otherwise nothing changes |
| Seeding.ShippedSeed | backend/scripts/seed_bots.py:23-41 | the shipped list adds "Blessing Q&A", active and on "gemini-3.0-flash", to a table that lacks it |
| Chat.SelectLlm | app/api/v1/endpoints/chat.py:25-30 | the service is built for the bot's model, and it is OpenAI exactly when the name starts with "gpt" |
| Chat.CheckBot | app/api/v1/endpoints/chat.py:44-51 | 404 exactly for a missing bot, 400 exactly for an inactive one, otherwise the bot itself |
| Chat.StreamEvents | app/api/v1/endpoints/chat.py:58-71 | one content record per chunk, in order, then exactly one terminator or one error record |
| Chat.DataEventFramed | app/api/v1/endpoints/chat.py:66-71 | `DataEvent` of a payload without line breaks is one well-framed event-stream record |
| Chat.RecordFramed | app/api/v1/endpoints/chat.py:65-71 | `Render` makes every record the stream sends well framed, so each reaches the client as one event |
| Chat.DoneIsDistinct | app/api/v1/endpoints/chat.py:66-67 | only the terminator renders as `data: [DONE]` |
| Chat.DoneOnlyAtEnd | app/api/v1/endpoints/chat.py:60-71 | the terminator is sent exactly when the source did not fail, and only last |
| Chat.RecordShape | app/api/v1/endpoints/chat.py:65-66 | a one-key record is a fixed prefix, the escaped value and a fixed suffix |
| Chat.ContentShape | app/api/v1/endpoints/chat.py:65-66 | a content record is the content prefix, the escaped chunk and the suffix |
| Chat.ContentRoundTrip | app/api/v1/endpoints/chat.py:65-66 | a client parsing a content record gets the chunk back exactly |
| Chat.RenderAll | app/api/v1/endpoints/chat.py:58-71 | one text per record |
| Chat.RenderAllAt | app/api/v1/endpoints/chat.py:58-71 | the text at each position is that record's rendering |
| Chat.EventGenerator | app/api/v1/endpoints/chat.py:58-71 | the generator yields exactly the rendered records of the stream, in order |
| Chat.ResponseSessionId | app/api/v1/endpoints/chat.py:90 | a non-zero session id is echoed; a missing or zero one gives 0 |
| Chat.SessionIdIsDefault | app/api/v1/endpoints/chat.py:90 | the falsy-zero rule agrees with a plain default of 0 |
| Chat.ChatCompletions | app/api/v1/endpoints/chat.py:33-93 | bot errors come first; the chosen service is asked with the request's message and the bot's system prompt; in stream mode an event stream with the generator's records; otherwise a raising call is an error, and an answer is returned whole with the session id rule and the request's bot id |
| Json.EscapeChar | app/api/v1/endpoints/chat.py:65 | one escape per character, without line breaks, and one character long exactly when the character is written as it is |
| Json.EscapeString | app/api/v1/endpoints/chat.py:65 | the escaped text has no line breaks |
| Json.Quote | app/api/v1/endpoints/chat.py:65 | a quoted string without line breaks |
| Json.EscapePlain | app/api/v1/endpoints/chat.py:65 | plain text is written unchanged |
| Json.Object1 | app/api/v1/endpoints/chat.py:65-70 | a one-key object has no line breaks |
| Json.Object1IsDumps | app/api/v1/endpoints/chat.py:65-70 | it is the general encoding, key quoted like any string |
| Json.Unescape | app/api/v1/endpoints/chat.py:65 | decoding a record's string never lengthens it, and text without a backslash decodes to itself |
| Json.UnescapeChar | app/api/v1/endpoints/chat.py:65 | decoding one escape gives back its character |
| Json.UnescapeEscape | app/api/v1/endpoints/chat.py:65 | decoding the escaped text gives the string back |
| Json.QuoteInjective | app/api/v1/endpoints/chat.py:65 | two different strings are never encoded alike |
| RagFactory.RagServiceFor | app/services/rag/factory.py:15-23 | a "gemini" prefix gives Gemini; OpenAI exactly when the name does not start with "gemini" but starts with "gpt" or is "openai"; anything else Gemini |
| RagFactory.RulesAreDisjoint | app/services/rag/factory.py:15-23 | no name satisfies both rules, so every OpenAI-style name reaches OpenAI |
| GeminiRag.FirstNamed | app/services/rag/gemini.py:43-47 | a store is found exactly when some listed store has the display name |
| GeminiRag.RememberedIgnoresProvider | app/services/rag/gemini.py:38-39 | a remembered non-empty name is returned and kept, whatever the provider would say |
| GeminiRag.LookupIsStable | app/services/rag/gemini.py:38-58 | after a lookup returned a non-empty name, every later lookup returns that name |
| GeminiRag.FailedListingCreates | app/services/rag/gemini.py:41-58 | with nothing remembered and nothing listed, the result is whatever the creation returns |
| GeminiRag.ExistingStoreIsReused | app/services/rag/gemini.py:43-47 | the first listed store with the display name is reused and nothing is created |
| GeminiRag.FirstNamedAt | app/services/rag/gemini.py:43-47 | the first store with the display name is the one found |
| GeminiRag.ShortId | app/services/rag/gemini.py:136 | the short id contains no "/", and a missing name gives "" |
| GeminiRag.ShortIdOfPlainName | app/services/rag/gemini.py:136 | a name without "/" is its own short id |
| GeminiRag.ShortIdOfDocumentName | app/services/rag/gemini.py:161-171 | the short id of the resource name built for deletion is the id it was built from |
| GeminiRag.Info | app/services/rag/gemini.py:134-142 | the entry's id is the document's short id and its status "completed"; its display name is the document's own when present and non-empty, else "unknown"; creation time and size are passed through |
| GeminiRag.OfBot | app/services/rag/gemini.py:116-123 | every document kept carries the bot's id |
| GeminiRag.Infos | app/services/rag/gemini.py:134-142 | one entry per document |
| GeminiRag.ListedIsOfBot | app/services/rag/gemini.py:116-142 | `Listed`, the listing, is exactly the bot's documents, in provider order, each turned into its entry |
| GeminiRag.OfBotExact | app/services/rag/gemini.py:116-123 | a document is kept exactly when it is listed and carries the bot's id |
| GeminiRag.ScanMetadata | app/services/rag/gemini.py:119-123 | the scan finds the bot exactly when some metadata entry is `bot_id` with the bot's id |
| GeminiRag.OwnershipIsFirstMatch | app/services/rag/gemini.py:169-179 | deletion is allowed exactly when the first document with that short id carries the bot's id |
| GeminiRag.SlashedIdIsRefused | app/services/rag/gemini.py:169-184 | an id containing "/" is always refused |
| GeminiRag.CitationOf | app/services/rag/gemini.py:252-260 | the title is the context's; the text is absent exactly when the context's is missing or empty, and otherwise its first 300 characters |
| GeminiRag.CitationsFollowContexts | app/services/rag/gemini.py:249-261 | one citation per chunk with a context, in order, each cut to 300 characters |
| GeminiRag.ExtractCitations | app/services/rag/gemini.py:246-263 | the loop collects exactly the first candidate's citations, none without a candidate |
| GeminiRag.MetadataFiltersDistinct | app/services/rag/gemini.py:232 | `MetadataFilter`, the filter `bot_id = {bot_id}`, is never the same for two bots |
| GeminiRag.UploadMetadata | app/services/rag/gemini.py:87 | the upload's metadata carries the bot's id and no other bot's |
| GeminiRag.UploadedIsListedForItsBot | app/services/rag/gemini.py:87-123 | a document stored with the upload's metadata is listed for its bot and for no other |
| GeminiRag.GeminiRagService.constructor | app/services/rag/gemini.py:25-29 | nothing remembered yet |
| GeminiRag.GeminiRagService.EnsureStore | app/services/rag/gemini.py:31-58 | the result and the remembered name follow the lookup rule: remembered, else first listed, else created |
| GeminiRag.GeminiRagService.UploadDocument | app/services/rag/gemini.py:60-100 | without a store it fails before uploading; otherwise it uploads the file to the store with the bot's metadata and returns the display name, or fails when the provider refuses |
| GeminiRag.CollectListed | app/services/rag/gemini.py:116-142 | the loop builds exactly the listing: the bot's documents' entries, in order |
| GeminiRag.GeminiRagService.ListDocuments | app/services/rag/gemini.py:102-149 | the entries are exactly the listed documents of the bot, in order; none when the store or the listing fails |
| GeminiRag.GeminiRagService.DeleteDocument | app/services/rag/gemini.py:151-196 | no store, a failed listing, a document not owned and a raising delete call are distinct errors; otherwise the resource name built from the store and the id is deleted |
| GeminiRag.GeminiRagService.GenerateWithRag | app/services/rag/gemini.py:198-268 | without a store nothing is asked; otherwise the request names the model rule, the one store, the bot's filter, the system prompt when non-empty, the caller's temperature and output-token limit; a raising `generate_content` and a missing candidate list (the uncaught `TypeError`) are distinct errors, and otherwise the answer carries the model's text and the first candidate's citations |
| OpenAIRag.StoreNamesDistinct | app/services/rag/openai_rag.py:44 | `StoreNameFor`, the store name `{base}_bot_{bot_id}`, never gives two bots the same name |
| OpenAIRag.FirstWithName | app/services/rag/openai_rag.py:46-52 | a store is found exactly when some listed store has the name |
| OpenAIRag.EnsuredFor | app/services/rag/openai_rag.py:30-67 | a falsy bot id is refused; a remembered id is returned; a creation failure is reported exactly when nothing is remembered or listed and the creation raises |
| OpenAIRag.LookupRemembers | app/services/rag/openai_rag.py:38-67 | a successful lookup remembers the bot's id and leaves every other bot's as it was; a failed one changes nothing |
| OpenAIRag.LookupIsStable | app/services/rag/openai_rag.py:41-42 | once a bot's store is known, later lookups return it whatever the provider says |
| OpenAIRag.FirstWithNameAt | app/services/rag/openai_rag.py:46-52 | the first store with the name is the one found |
| OpenAIRag.Checks | app/services/rag/openai_rag.py:121-129 | checks are made only while the status is pending and never beyond 60 seconds; the poll ends on a settled status or at the time limit |
| OpenAIRag.PollIsBounded | app/services/rag/openai_rag.py:121-129 | at most 30 checks, every one made on a pending status, ending settled or at 60 seconds |
| OpenAIRag.SettledIsNotPolled | app/services/rag/openai_rag.py:123 | a file already settled when attached is never checked |
| OpenAIRag.Marker | app/services/rag/openai_rag.py:235 | a marker is a bracketed number |
| OpenAIRag.FileCitations | app/services/rag/openai_rag.py:236-247 | at most one citation per annotation |
| OpenAIRag.CitationOf | app/services/rag/openai_rag.py:236-247 | an annotation contributes at most one citation |
| OpenAIRag.CitationsAreFiles | app/services/rag/openai_rag.py:242-244 | every citation names a file and quotes it with the reference suffix |
| OpenAIRag.CitationCount | app/services/rag/openai_rag.py:236-247 | no resolvable file citation gives no citations, and all resolvable gives one per annotation |
| OpenAIRag.AbsentAnnotationsKeepAnswer | app/services/rag/openai_rag.py:233-235 | annotations whose texts do not occur leave the answer unchanged |
| OpenAIRag.WholeAnnotationBecomesMarker | app/services/rag/openai_rag.py:233-235 | an answer that is exactly its one annotation's text becomes "[1]" |
| OpenAIRag.FirstAssistant | app/services/rag/openai_rag.py:215-219 | the message found has the assistant role and is among the messages; none exactly when no message has that role |
| OpenAIRag.Answer | app/services/rag/openai_rag.py:205-253 | a run that did not complete, and a run without assistant text, give their fixed answers and no citations |
| OpenAIRag.FixedAnswersSkipCleanUp | app/services/rag/openai_rag.py:205-251 | the fixed answers are given exactly on the paths that skip the clean-up |
| OpenAIRag.FindAssistant | app/services/rag/openai_rag.py:215-219 | the loop finds the first assistant message |
| OpenAIRag.FileCitationsStep | app/services/rag/openai_rag.py:236-247 | the citations from an annotation on are its own followed by the rest's |
| OpenAIRag.RewrittenStep | app/services/rag/openai_rag.py:233-235 | `Rewritten`, the rewriting from an annotation on, replaces that annotation's text by its marker, then goes on with the rest |
| OpenAIRag.CiteAnnotation | app/services/rag/openai_rag.py:236-247 | the annotation's citation, when it cites a file whose lookup succeeds |
| OpenAIRag.RewriteAnswer | app/services/rag/openai_rag.py:225-247 | the loop returns the fully rewritten text and exactly the collected citations, in annotation order |
| OpenAIRag.OpenAIRagService.constructor | app/services/rag/openai_rag.py:24-28 | no store remembered |
| OpenAIRag.OpenAIRagService.EnsureStore | app/services/rag/openai_rag.py:30-67 | the result and the remembered ids follow the lookup rule |
| OpenAIRag.OpenAIRagService.UploadDocument | app/services/rag/openai_rag.py:69-144 | a missing store and a failed upload are errors made before any check; an uploaded file is attached to the bot's own store; otherwise the file id is returned after exactly the checks the poll rule makes |
| OpenAIRag.Generated | app/services/rag/openai_rag.py:162-257 | a raising run creation, message listing or clean-up is an error, and exactly those; every answer is the answer rule applied to the run's status and messages |
| OpenAIRag.OpenAIRagService.GenerateWithRag | app/services/rag/openai_rag.py:146-257 | a store failure is returned; otherwise the run asks for the prompt, the bot's system prompt, the model, the bot's own store, the caller's temperature and `max_completion_tokens`, the outcome follows `Generated`, and the clean-up is attempted exactly on the path that reaches the end |
| LocalStorage.Name | app/services/storage/local.py:44 | the last component pathlib keeps: no "/", never "." and never empty unless there is none |
| LocalStorage.NameIgnoresTrailing | app/services/storage/local.py:44 | a trailing "/" or "/." does not change the name |
| LocalStorage.NamelessPaths | app/services/storage/local.py:44 | the root, "." and the empty path have the empty name |
| LocalStorage.NameAfterSeparator | app/services/storage/local.py:44 | a kept component after the last "/" is the name |
| LocalStorage.NameOfJoined | app/services/storage/local.py:27-44 | a kept name joined to any directory is the joined path's name |
| LocalStorage.Suffix | app/services/storage/local.py:25 | a suffix is empty or a dot followed by at least one character and no other dot, shorter than the name |
| LocalStorage.SuffixOfExtension | app/services/storage/local.py:25 | a stem followed by a dot and an extension without dots has that extension as its suffix |
| LocalStorage.SuffixIsTail | app/services/storage/local.py:25 | the suffix is the tail of the name |
| LocalStorage.NoDotNoSuffix | app/services/storage/local.py:25 | a name without a dot has no suffix |
| LocalStorage.LeadingDotNoSuffix | app/services/storage/local.py:25 | a hidden file's name, whose only dot is in front, has no suffix |
| LocalStorage.StoredName | app/services/storage/local.py:25-26 | the stored name starts with the 32-digit identifier and contains no "/"; it is the identifier alone for an empty filename, and otherwise the identifier followed by the suffix of the filename's last component |
| LocalStorage.StoredNameKeepsSuffix | app/services/storage/local.py:25-26 | the stored file keeps the uploaded file's extension |
| LocalStorage.StoredNameKeepsExtension | app/services/storage/local.py:25-27 | an upload such as "report.pdf", in any directory, is stored as the identifier followed by ".pdf" |
| LocalStorage.StoredNamesDistinct | app/services/storage/local.py:26 | different identifiers never give the same stored name |
| LocalStorage.Join | app/services/storage/local.py:27 | the joined path starts with the directory, followed by "/" unless the directory is the root, then the name |
| LocalStorage.GetUrl | app/services/storage/local.py:44 | the URL starts with "/static/uploads/" followed by a single component |
| LocalStorage.UrlIgnoresDirectory | app/services/storage/local.py:44 | the URL depends on the last component only, not on the directory |
| LocalStorage.UploadedUrl | app/services/storage/local.py:22-44 | the URL of an uploaded file names exactly its stored name |
| LocalStorage.LocalFileStorage.constructor | app/services/storage/local.py:18-20 | the directory with its existing files |
| LocalStorage.LocalFileStorage.Upload | app/services/storage/local.py:22-32 | the path is the directory joined with the stored name, and the files are the old files with the data written there |
| LocalStorage.LocalFileStorage.Delete | app/services/storage/local.py:34-40 | true exactly when the file existed; the file is then gone and nothing else changes |
| LocalStorage.LocalFileStorage.Url | app/services/storage/local.py:42-44 | the URL of the path |
| LocalStorage.UploadThenDelete | app/services/storage/local.py:22-40 | deleting a freshly uploaded path gives back the files as they were |
| Kakao.Echo | app/api/v1/endpoints/kakao.py:39 | the fixed prefix followed by exactly the utterance |
| Kakao.Callback | app/api/v1/endpoints/kakao.py:24-44 | version "2.0" and exactly one text output, the prefix followed by the utterance |
| Kakao.OnlyUtteranceMatters | app/api/v1/endpoints/kakao.py:24-44 | two requests get the same response exactly when their utterances agree |
| Kakao.Unecho | app/api/v1/endpoints/kakao.py:39 | a text is read back exactly when it starts with the prefix |
| Kakao.EchoRecovers | app/api/v1/endpoints/kakao.py:39 | the utterance is read back from its echo |
| Kakao.EchoIsEcho | app/api/v1/endpoints/kakao.py:39 | a text read back is the echo of what it gives |
| Seqs.FilterExact | app/api/v1/endpoints/bots.py:36 | a filter keeps exactly the elements that pass, each as often as it occurs, in their original order |
| Seqs.FilterCounts | app/api/v1/endpoints/bots.py:36 | an element that passes occurs in the filter as often as in the input; one that fails not at all |
| Text.BeforeFirst | frontend-client/src/components/layout/Header.tsx:74 | `split("@")[0]` is a prefix without the separator, ending at the first separator |
| Text.AfterLast | app/services/rag/gemini.py:136 | `rsplit("/", 1)[-1]` contains no separator and follows the last one |
| Text.AfterLastIsSuffix | app/services/rag/gemini.py:136 | the last segment is a suffix of the text |
| Text.AfterLastSeparator | app/services/rag/gemini.py:171 | whatever follows the last separator is the last segment |
| Text.Take | app/services/rag/gemini.py:256 | `[:300]` is the prefix of that length, or the whole text when shorter |
| Text.OrElse | app/services/rag/openai_rag.py:160 | `value or fallback` on an optional string: the value when present and non-empty, otherwise the fallback, as for the model names (here and gemini.py:220) and the display name (gemini.py:137) |
| Text.ReplaceAll | app/services/rag/openai_rag.py:235 | `str.replace`: a pattern replaced by itself changes nothing, and a text shorter than a non-empty pattern is left as it is |
| Text.ReplaceAbsent | app/services/rag/openai_rag.py:235 | `replace` of a non-empty pattern that does not occur changes nothing |
| Text.ReplaceWhole | app/services/rag/openai_rag.py:235 | replacing a whole text by a marker gives the marker |
| Text.IntToString | app/services/rag/openai_rag.py:44 | `str(int)` is never empty and starts with "-" exactly for a negative number |
| Text.IntToStringInjective | app/services/rag/openai_rag.py:44 | `str(int)` never renders two numbers alike |

## Left out

- Network, disk and provider I/O are not modelled. Each call's answer is a parameter, so the models cover every possible answer but not how one is obtained.
- Concurrency is not modelled: interleaved requests, React re-renders, and events arriving between an `await` and what follows it. Each async handler is modelled as the part before its `await` and the part after it, run back to back.
- Time is left out. `datetime.utcnow()` is a clock reading passed in; the two-second `sleep` of the OpenAI poll is modelled only by its elapsed-time counter.
- `uuid.uuid4()` is a parameter that must be 32 lower-case hex digits; its randomness, and so the absence of collisions, is not modelled.
- Pydantic validation is modelled only where the endpoints depend on it: null tags refused by `BotResponse`, and the defaults of `BotCreateRequest`. Request parsing and type coercion are left out.
- The bot table's columns and their nullability follow backend/app/models/bot.py:19-38: `icon_url` may be null, `tags` is a nullable JSON column, and every other column is required. The table's column limits (`max_length`) are not modelled.
- LocalStorage.Join: the upload directory is taken as pathlib prints it, such as `uploads` for `./uploads`; the printing itself is not modelled. `Name` does follow pathlib in dropping empty and `.` components.
- LocalStorage.LocalFileStorage.Delete: `Path.exists()` is modelled as the key being in the file map. Directories, links and a path that normalises to a stored one are not modelled.
- GeminiRag: the `numeric_value` of a metadata entry is a float in the provider's API. It is modelled as an integer, so `bot_id` comparisons are exact.
- GeminiRag.GeminiRagService.GenerateWithRag: the language model itself is not modelled; its reply (text and candidate list) is a parameter, `None` when `generate_content` raises. The temperature and token limit are recorded in the request but have no modelled effect on the reply.
- OpenAIRag.OpenAIRagService.UploadDocument: a failure of a status retrieval inside the poll loop is not modelled; each retrieval returns a status.
- OpenAIRag.OpenAIRagService.GenerateWithRag: the provider's work is left out. The run's final status, the thread's messages, and whether each provider call raises are parameters. What the run asks for, temperature and completion-token limit included, is recorded as a request; the settings have no modelled effect on the run. The clean-up is recorded as a flag.
- OpenAIRag.RewriteAnswer: the source's single loop rewrites the text and collects the citation in each step. The model keeps that single loop but moves the collection of one citation into `CiteAnnotation`.
- Chat: the language-model services (`services/llm`) are not part of this model. Their chunks, the failure that ends a stream, and the whole answer or its failure are parameters.
- Chat.ChatCompletions: the response headers `Cache-Control`, `Connection` and `X-Accel-Buffering` are not modelled.
- Json: `json.dumps` is modelled only for one-key objects with a string value, the only form the chat endpoint writes.
- Kakao: the callback's log line is left out, like every other log line.
- Landing: the presentational components are left out; only the category filter and the grid title are modelled.

## Findings

| source | as written | input that shows it | evidently intended | confidence | as-written member | corrected member |
|---|---|---|---|---|---|---|
| frontend-client/src/app/auth/callback/route.ts:14-21 | `next` is appended to the origin unchecked, so text starting with `@` turns the origin into user info and moves the host | `next=@evil.example` with a valid code on `https://app.example` redirects to `https://app.example@evil.example`, host `evil.example` | only a path on this site (starting with `/`) is followed, anything else falls back to `/` | high, not executed | OAuthCallback.OpenRedirectAsWritten | OAuthCallback.SafeCallbackStaysOnHost |
