# Dawie se chatbot: a Dafny model of its core

The project is a chat front end for an n8n workflow, with a small login server in front of it.
This Dafny project models the three pieces of its logic that decide what the user sees and who gets in.

- **The webhook client** (`N8nService.sendMessage`). One request outcome maps to one result:
  - a value to display, or
  - one of three error messages: not configured, cannot connect, or upstream error.

  Module `N8nService` handles the result. It relies on these supporting modules:
  - `Json`: JSON values, JavaScript truthiness and the `a.output || a.response || …` chain.
  - `JsText`: `trim`, ASCII `toLowerCase`, `split` and `join` on one character, and `String(n)`.
- **The chat session store** (the `App` component's state and handlers). It has four parts:
  - a list of sessions, newest first;
  - the active session;
  - the input box;
  - the busy flag.

  Module `ChatApp` holds a class with those fields. Each handler is a method that replaces the list by one of the pure transforms of module `SessionList`, which are:
  - prepend;
  - map by id;
  - filter by id;
  - find the first other session;
  - the rule that names a session after its first message.
- **The login gateway** (`server.ts`). It has two parts:
  - Module `AuthRules` holds the pure rules: the e-mail whitelist, and the three OAuth 2.0 requests of the authorization-code flow. These are the authorization request (section 4.1.1 of RFC 6749), the token request (section 4.1.3 of RFC 6749) and the Bearer profile request (section 2.1 of RFC 6750).
  - Module `AuthServer` holds the session. Class `AuthGateway` keeps the cookie session's user. Its methods are the routes `/api/auth/user`, `/api/auth/logout`, `/api/auth/google/url` and `/auth/google/callback`.

Some things are inputs to the model rather than computed by it:
- fresh ids (`crypto.randomUUID()`);
- clock readings (`Date.now()`);
- the result of `fetch` and of `JSON.parse`;
- the LLM greeting;
- the two Google responses.

`JSON.stringify` and `URLSearchParams.toString()` are function parameters.

A few one-expression definitions are used by the members in the table and need no row of their own: `N8nService.IsOk` is `response.ok` (services/n8nService.ts:33), `AuthRules.EnvText` is a `process.env.X!` value as `URLSearchParams` writes it, "undefined" when unset (server.ts:50 and server.ts:76-77), and `ChatApp.UserMessage` and `ChatApp.AgentMessage` are the message literals of App.tsx:177-182 and App.tsx:196-201.

Asynchronous handlers are split into atomic steps. Creating a session is one step and its greeting arriving is another. Starting a send is one step and its completion is another.

The App checks for an empty webhook URL itself (App.tsx:190-192) before it calls the service. So the service's own "not configured" message (services/n8nService.ts:8-10) never reaches the chat from the App. It is still modelled, as part of `SendMessage`.

## Model

| member | source | states |
|---|---|---|
| JsText.TrimStart | services/n8nService.ts:37 | the result is a suffix of the input, what was dropped is all JavaScript whitespace, and the result does not start with whitespace |
| JsText.TrimEnd | services/n8nService.ts:37 | the result is a prefix of the input, what was dropped is all whitespace, and the result does not end with whitespace |
| JsText.Trim | services/n8nService.ts:37 | the trimmed string is no longer than the input and, when non-empty, neither starts nor ends with whitespace |
| JsText.TrimIsCore | server.ts:27 | `trim` cuts exactly the leading and trailing whitespace and keeps the middle of the string unchanged |
| JsText.TrimEmptyIff | services/n8nService.ts:37 | a string trims to "" exactly when every character is whitespace |
| JsText.TrimIdempotent | server.ts:27 | trimming twice is trimming once |
| JsText.LowerChar | server.ts:27-28 | an ASCII capital moves 32 code points up to its small letter; every other character is kept; the result is never a capital |
| JsText.ToLower | server.ts:27-28 | same length, lower-cased character by character |
| JsText.ToLowerIdempotent | server.ts:27-28 | lower-casing twice is lower-casing once |
| JsText.Split | server.ts:27 | `split` gives at least one piece, and no piece contains the separator |
| JsText.JoinSplit | server.ts:27 | joining the pieces of a split with the same separator gives back the string |
| JsText.SplitJoin | server.ts:54-57 | splitting a join of separator-free pieces gives back the pieces |
| JsText.Join | server.ts:57 | joining starts with the first piece, followed by the separator when there is a second piece; no pieces join to "" |
| JsText.NatToString | services/n8nService.ts:34 | `String(n)` of a natural number is a non-empty run of digits without a leading zero |
| JsText.ParseNatToString | services/n8nService.ts:34 | reading back the decimal digits of `String(n)` gives n |
| JsText.IntToString | services/n8nService.ts:57 | `String(n)` reads back as n: digits without a leading zero for n >= 0, and "-" followed by the digits of -n for a negative n |
| JsText.IntToStringInjective | services/n8nService.ts:57 | different numbers have different decimal strings |
| Json.Truthy | services/n8nService.ts:50-54 | a JSON value is falsy exactly when it is null, false, 0 or "" |
| Json.Field | services/n8nService.ts:54 | a property is present exactly when the value is an object that has that key, and then it is that key's value |
| Json.FirstTruthyIndex | services/n8nService.ts:54 | every key before the index has a falsy or missing field, and the key at the index (if any) has a truthy one |
| Json.OrChain | services/n8nService.ts:50-54 | the or-chain yields the field of the first key whose field is truthy, and the fallback when there is none |
| N8nService.PrimitiveString | services/n8nService.ts:57 | `String(v)`: "null", "true"/"false", the decimal form of a number, the string itself |
| N8nService.ErrorMessage | services/n8nService.ts:9-34 | no error message is empty; the upstream message is "n8n Error (" then the status, "): " and the detail |
| N8nService.Normalise | services/n8nService.ts:41-61 | a body that does not parse is shown as it is; anything else shown is a string or a truthy field value of the parsed object (or of its first element) |
| N8nService.SendMessage | services/n8nService.ts:7-62 | fails exactly when the URL is empty, the transport failed, the body could not be read or the status is outside 200-299; an unreadable body fails with the runtime's own reason, every other failure carries one of the three error messages |
| N8nService.ClassifyErrorMessage | services/n8nService.ts:9-34 | the three error messages can be told apart, and an upstream message gives back its status and detail, so the message determines the failure |
| N8nService.EmptyUrlFailsFirst | services/n8nService.ts:8-10 | an empty URL fails with the configuration error whatever the transport outcome |
| N8nService.TransportFailureIsConnectivityError | services/n8nService.ts:13-29 | a transport failure always gives the one connectivity message |
| N8nService.NonOkStatusIsUpstreamError | services/n8nService.ts:31-35 | a non-2xx status fails with `n8n Error (<status>): <body or statusText>`, never the "no content" success |
| N8nService.BlankBodyIsNoContent | services/n8nService.ts:37-39 | an ok body that is all whitespace gives exactly the canned text; any other ok body is normalised |
| N8nService.NotJsonShownVerbatim | services/n8nService.ts:58-61 | a body that does not parse is returned as it is |
| N8nService.ReplyFieldPriority | services/n8nService.ts:54 | output, then response, then message, then text, each taken only when truthy; otherwise the fallback |
| N8nService.ObjectReply | services/n8nService.ts:53-55 | an object or `[]` shows its field chain with its serialisation as fallback; `[]` shows its serialisation |
| N8nService.ArrayReply | services/n8nService.ts:48-51 | a non-empty array is judged by element 0: a null element returns the raw body, a string element returns itself, otherwise its field chain with its serialisation as fallback |
| N8nService.PrimitiveReply | services/n8nService.ts:57 | a primitive shows its string form; null reads "null" and 42 reads "42" |
| N8nService.ReplyShape | services/n8nService.ts:31-61 | a configured request whose body was read with a 2xx status always yields Ok, blank body or not; what it shows is a string or a truthy field of the parsed object (or of its first element) |
| N8nService.SampleReplies | services/n8nService.ts:44-55 | `[{"output":"hi"}]` shows "hi", `{"text":"yo"}` shows "yo", `{"x":1}` shows its serialisation, "not json" is shown as is, an empty 200 gives the canned text |
| SessionList.NewSession | App.tsx:140-145 | a new session is named "New Chat", has no messages and carries its id and creation time |
| SessionList.MapWhere | App.tsx:159 | `map` by id rewrites the sessions with that id and keeps every other one, position by position |
| SessionList.AppendMessage | App.tsx:185 | the session with the id gains the message at its end; every other session is kept; ids are unchanged |
| SessionList.ReplaceMessages | App.tsx:159 | the session with the id gets exactly the given messages; every other session is kept |
| SessionList.TruncatedName | App.tsx:208 | the name is the text when it has at most 30 characters, else its first 30 characters and "..."; never longer than 33 |
| SessionList.WithReply | App.tsx:203-210 | the reply is appended, and the name becomes the truncated user text exactly when the session was "New Chat" or held at most one message |
| SessionList.AppendReply | App.tsx:203-213 | the reply lands in the session with the id alone, as `WithReply` describes; every other session is kept |
| SessionList.Remove | App.tsx:167 | the filtered list holds exactly the sessions whose id differs |
| SessionList.FirstOtherIndex | App.tsx:169 | the first position whose id differs from the deleted one |
| SessionList.FirstOtherId | App.tsx:169 | none exactly when every session has the deleted id; otherwise the id of the first session that does not have it, which occurs in the list |
| SessionList.SameIdsAgree | App.tsx:185 | the per-session transforms keep the same ids, so uniqueness and membership are kept |
| SessionList.RemoveKeepsUnique | App.tsx:167 | filtering keeps the ids unique |
| SessionList.MessagesOfAt | App.tsx:185 | in a list with unique ids, looking up a session by its id finds its own messages |
| SessionList.AppendMessageAt | App.tsx:185 | appending to a uniquely named session changes that session alone, by exactly one message |
| SessionList.SendRoundAppendsPair | App.tsx:177-213 | a successful send adds exactly the user's message and then the reply to its session |
| SessionList.FirstExchangeNamesSession | App.tsx:207-209 | the first exchange names a fresh session after the user's text; a second exchange keeps that name unless it reads "New Chat" |
| SessionList.TruncatedNameExample | App.tsx:208 | a 44-character text becomes its first 30 characters and "..." |
| SessionList.RemoveAt | App.tsx:167 | deleting a unique id cuts exactly its position out and keeps the order of the rest |
| SessionList.RemoveAbsent | App.tsx:167 | deleting an id that is not there changes nothing |
| SessionList.NextActiveAfterDelete | App.tsx:168-170 | the next active session is the head of the list, or the second session when the head was deleted, or none; it survives the deletion |
| ChatApp.CanSend | App.tsx:175 | a send may start exactly when the input is not all whitespace, no send is in flight and a session is active |
| ChatApp.ErrorNotice | App.tsx:215-221 | a SYSTEM message flagged `isError`, carrying the error's message or the default text, never empty |
| ChatApp.ChatApp.constructor | App.tsx:45-75 | the saved settings or the default URL; the saved sessions with the first one active, or one new active session when none were saved |
| ChatApp.ChatApp.CreateNewSession | App.tsx:138-148 | a fresh "New Chat" session is prepended and becomes active; nothing else changes |
| ChatApp.ChatApp.ReceiveGreeting | App.tsx:150-162 | on success the session's messages become exactly the greeting; on failure nothing changes |
| ChatApp.ChatApp.DeleteSession | App.tsx:165-171 | the session is filtered out; the active id moves to the first other session (or none) only if the deleted one was active |
| ChatApp.ChatApp.SelectSession | App.tsx:296 | the clicked session becomes active; nothing else changes |
| ChatApp.ChatApp.SetInputText | App.tsx:469 | the input box takes the typed text; nothing else changes |
| ChatApp.ChatApp.SetWebhookUrl | App.tsx:518 | the settings take the new URL; nothing else changes |
| ChatApp.ChatApp.BeginSend | App.tsx:173-187 | a send starts exactly when the trimmed input is non-empty, no send is in flight and a session is active; it then appends one USER message with the untrimmed text to the active session, clears the input and sets the busy flag; otherwise nothing changes |
| ChatApp.ChatApp.CompleteSend | App.tsx:189-225 | an empty captured URL appends the "missing" notice; a reply is appended to the captured session, maybe renaming it; a failure appends a SYSTEM error notice; the busy flag is cleared in every case |
| ChatApp.SendOnFreshApp | App.tsx:138-213 | on a fresh app one send leaves the new session with the user's message and the reply, in order, named after the message |
| AuthRules.EnvOr | server.ts:49 | an unset or empty environment variable reads as the fallback, a set one as its value |
| AuthRules.RedirectUri | server.ts:49 | the redirect URI ends with the callback path and starts with `APP_URL` when it is set; unset or empty, it is the localhost default plus the callback path |
| AuthRules.Whitelist | server.ts:27 | one entry per comma-separated piece of `AUTH_WHITELIST`, trimmed and lower-cased |
| AuthRules.IsWhitelisted | server.ts:26-29 | an address is accepted exactly when some comma-separated piece of `AUTH_WHITELIST`, trimmed and lower-cased, equals the lower-cased address |
| AuthRules.WhitelistIgnoresCase | server.ts:26-29 | addresses that differ only in letter case are accepted or refused together |
| AuthRules.WhitelistedIff | server.ts:26-29 | an address is accepted exactly when it matches, lower-cased, some entry trimmed and lower-cased |
| AuthRules.UnsetWhitelistAcceptsOnlyEmpty | server.ts:27 | with `AUTH_WHITELIST` unset or empty only the empty address is accepted |
| AuthRules.PaddedAddressRefused | server.ts:28 | the address is not trimmed: one that starts with whitespace is never accepted |
| AuthRules.AuthorizationParams | server.ts:48-58 | the authorization parameters are named redirect_uri, client_id, access_type, response_type, prompt and scope, in that order, and the scope splits on " " into the profile and e-mail scopes |
| AuthRules.TokenParams | server.ts:74-80 | the token form is named code, client_id, client_secret, redirect_uri and grant_type, in that order; it carries the code and `authorization_code`, and the same redirect_uri and client_id as the authorization request |
| AuthRules.ParamValueAt | server.ts:60 | a parameter whose name does not occur earlier is found with its own value |
| AuthRules.AuthorizationUrl | server.ts:60-61 | the URL is the Google authorization endpoint, "?", then exactly the encoding of the authorization parameters |
| AuthRules.BearerHeader | server.ts:87 | the header is "Bearer " followed by the access token, or "undefined" when it is missing |
| AuthRules.AuthorizationRequestConforms | server.ts:46-61 | the parameters are redirect_uri, client_id, access_type=offline, response_type=code, prompt=consent and the two userinfo scopes separated by one space |
| AuthRules.TokenRequestConforms | server.ts:49-80 | the token request carries the code, `grant_type=authorization_code`, and the same client_id and redirect_uri (`APP_URL` or the default, plus the callback path) as the authorization request |
| AuthServer.Status | server.ts:32-136 | 401 only for a missing user, 500 only for a failed callback, 200 otherwise |
| AuthServer.Decide | server.ts:69-136 | a callback fails when a request fails or the profile has no e-mail; it is accepted exactly when the e-mail is whitelisted, with the profile's id, e-mail, name and picture |
| AuthServer.CallbackReply | server.ts:92-136 | the success page exactly on acceptance, the auth-error page exactly on denial, 500 exactly on failure |
| AuthServer.UnsetWhitelistLocksOut | server.ts:26-108 | with the whitelist unset no one with a non-empty e-mail logs in |
| AuthServer.PaddedProfileRefused | server.ts:92-108 | a profile e-mail that starts with whitespace is never accepted |
| AuthServer.AuthGateway.constructor | server.ts:15-23 | a new visitor has no user in the session |
| AuthServer.AuthGateway.GetUser | server.ts:32-38 | the stored user exactly when one is set, 401 otherwise |
| AuthServer.AuthGateway.Logout | server.ts:40-43 | the user is cleared unconditionally |
| AuthServer.AuthGateway.GoogleAuthUrl | server.ts:46-62 | the reply carries the authorization URL and the session is not touched |
| AuthServer.AuthGateway.Callback | server.ts:65-137 | the token form is always built from the code; an accepted callback stores the identity, a denied or failed one leaves the session as it was; the reply follows `CallbackReply` |
| AuthServer.LoginThenLogout | server.ts:32-116 | after a whitelisted login the user route returns that identity; after logout it answers 401 |
| AuthServer.DeniedLoginKeepsUser | server.ts:92-116 | a denied login by another account leaves the logged-in user in place |

## Left out

- JSON numbers are integers: fractions, exponents, `NaN` and the exact `String(n)` of non-integers are not modelled.
- N8nService.PrimitiveString and JsText.IntToString write every integer in exact decimal. They stand for JavaScript numbers of magnitude below 2^53, where `String(n)` is that decimal form. Beyond 2^53 JavaScript prints the shortest digits that round to the same double (2^60 reads "1152921504606847000"), and from 1e21 on it uses exponent form ("1e+21"); neither is modelled.
- `JSON.parse` and `JSON.stringify` are not modelled: the parse result is an input and the serialisation is a function parameter.
- `URLSearchParams` percent-encoding is a function parameter. Query strings and form bodies are kept as ordered name/value lists.
- The body and headers of the POST to the webhook are not modelled, nor are the user message and session id it carries. Only the outcome of the request counts.
- ChatApp.ChatApp.CompleteSend takes the reply as a string. A truthy non-string field that `sendMessage` hands back (an object, say) would reach the message text as that object. The session store does not model this; `N8nService.SendMessage` itself returns a JSON value and keeps the case.
- Concurrency is not modelled. Overlapping completions, such as a greeting arriving in the middle of a send, are separate atomic steps. `deleteSession` reads the list of the last render rather than the latest one; the model reads the current list, and the two are the same when no update is pending.
- ChatApp.ChatApp.constructor assumes saved sessions have unique, non-empty ids, as this client writes them. Reading and writing localStorage and a corrupt saved value (which makes `JSON.parse` throw) are not modelled.
- Only ASCII letters are case-folded. `slice` is modelled on characters, not UTF-16 code units.
- The greeting generator (services/geminiService.ts) is not part of this model. Its text, or its failure, is an input of `ReceiveGreeting`.
- The UI is not modelled: rendering, scrolling, the clipboard, the settings modal (beyond setting the URL), the login popup and the `postMessage` handling in the App.
- Cookie signing, the 24-hour expiry, the Express/Vite bootstrap and static serving are not modelled.
- AuthServer.AuthGateway.Callback does not model the HTML of the two pages. Each page is one reply constructor: `SuccessPage` posts `OAUTH_AUTH_SUCCESS` to the opener window and `AuthErrorPage` posts `OAUTH_AUTH_ERROR`.
- A profile e-mail that is present but not a string is not modelled. An absent one makes `toLowerCase` throw, and that is modelled as a failed callback.
