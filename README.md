# Platform links, stats sync and "The Mirror" — a Dafny model

This project models the server core of a developer-productivity dashboard. A signed-in
user links accounts on coding platforms (GitHub, LeetCode, anything else). The server
caches a stats snapshot for each link and refreshes it on demand ("sync"). It can also
ask a text-generation engine for a critique of all the user's stats ("The Mirror").

What is modelled:

- **The `platforms` table** (`Storage.DatabaseStorage`): rows by primary key in a
  `map<int, Platform>`, plus the serial sequence's next value. There are five operations:
  list by owner, get by id, insert, replace stats, and delete. Each operation's contract
  says exactly which rows change and which stay the same.
- **The row shape and defaults** (`Schema`): the `Platform` row, the insert shape without
  the generated columns, the column defaults, and the connect request.
- **The handlers** (`Routes`): list, connect, delete, sync and analyze. They are methods
  over the store that return an `Http.Response`. The checks run in the source's order:
  validation gives 400, an unknown id gives 404, and a row the caller does not own gives 401.
  Only then does anything change.
- **The stats simulator** (`Simulator`): the platform name is matched case-insensitively.
  Each `random(min, max)` draw is a nondeterministic choice of an integer in `[min, max]`.
- **The analysis step** (`Mirror`): the digest has one line per platform, the prompt wraps
  it, and there is a short-circuit with no engine call when the user has no platforms.
- **Local accounts** (`Auth`): the login verify decision, login and register replies
  without the password, registration rules over a `users` table, session-user
  normalisation, and the `isAuthenticated` middleware.

Collaborators are parameters:

- `JSON.stringify` of a stats snapshot is `ser: Stats -> string`.
- The text-generation call is `generate: string -> Mirror.EngineResult`.
- Clock readings are `Timestamp` parameters. Each separate reading is its own parameter: in
  connect and sync, the simulator's `new Date()` is `checkTime`, while the row's
  `lastUpdated` is `now`.
- The database-generated user id is `newId`.
- bcrypt is a `Bcrypt(hash, compare)` value. Only the lemmas that need it assume
  `compare(p, hash(p))`, via `Auth.Sound`.

Three requirements one might expect of this system are not what the code does, and the model
follows the code:

- **Connect validation.** The connect input schema lives in `shared/routes.ts`, which is
  not part of this model, so this point rests on an assumption (see "## Left out"). The
  model takes the schema's column types as drizzle-zod derives them: `name` and `username`
  must be strings (an empty string passes), and `apiKey` is an optional string. Under that
  assumption an empty name is accepted, not rejected. Issues are reported in the order
  name, username, apiKey, and the reply carries the first one.
- **API key.** `config` is `{apiKey}` only when the key is truthy. An empty key gives `{}`.
- **Stats-provider failure.** A provider that fails could leave the old stats in place.
  The code has no such path: the simulator cannot fail. The model has none.

## Model

| member | source | states |
|---|---|---|
| Schema.NewRow | shared/schema.ts:14-24 | the stored row takes the serial id and the insert time whatever the caller passed; a left-out `config` or `stats` becomes `{}` |
| Storage.DatabaseStorage.GetPlatforms | server/storage.ts:24-26 | the result lists every row whose owner is the given user, only such rows, each once, exactly as stored |
| Storage.DatabaseStorage.GetPlatform | server/storage.ts:28-31 | returns the row under that id, or nothing exactly when no row has it |
| Storage.DatabaseStorage.CreatePlatform | server/storage.ts:33-36 | adds exactly one row under a fresh id, never used before; every existing row is unchanged |
| Storage.DatabaseStorage.UpdatePlatformStats | server/storage.ts:38-48 | on a stored id, only that row's `stats` and `lastUpdated` change and the new row is returned; on an absent id nothing changes and nothing is returned |
| Storage.DatabaseStorage.DeletePlatform | server/storage.ts:50-52 | removes that id and keeps every other row; an absent id is a no-op; ids are never reused |
| Storage.DeletedNotListed | server/storage.ts:50-52 | once an id is deleted, no listing of the owner's rows contains it |
| Simulator.Random | server/routes.ts:150 | a draw lies in `[min, max]`, both ends included |
| Simulator.KindOf | server/routes.ts:152-170 | the leetcode branch is taken exactly when the lower-cased name is "leetcode", the github branch exactly when it is "github", and the default branch for every other name |
| Simulator.SimulateFetchStats | server/routes.ts:148-173 | leetcode: ranking 10000–500000, easy 10–50, medium 5–30, hard 0–5, contest rating 1400–1800; github: followers 0–100, repos 5–50, commits 10–1000, streak 0–14; any other name: `{status: "Connected", lastCheck}` stamped with the simulator's own clock reading; never the empty snapshot |
| Simulator.CaseInsensitive | server/routes.ts:152 | names that differ only in letter case get snapshots of the same shape and ranges |
| Simulator.KnownSpellings | server/routes.ts:152-170 | "GitHub" and "LeetCode" take the github and leetcode branches; "wakatime" takes the default branch |
| Text.ToLower | server/routes.ts:152 | lower-casing keeps the length and leaves no capital letter |
| Text.ToLowerIdempotent | server/routes.ts:152 | lower-casing twice is the same as lower-casing once |
| Text.SplitJoin | server/routes.ts:108-110 | splitting on a separator undoes joining on it, provided no part contains the separator |
| Text.JoinSplit | server/routes.ts:108-110 | joining the pieces of a split gives back the original text |
| Mirror.Line | server/routes.ts:108 | a digest line is the platform's name, then its username in parentheses, then the serialized stats, each intact |
| Mirror.Lines | server/routes.ts:108-110 | one line per platform, in listing order |
| Mirror.Digest | server/routes.ts:108-110 | no platforms give the empty text; one platform gives its line alone |
| Mirror.DigestLines | server/routes.ts:108-110 | provided no name, username or serialized stats contains a newline, splitting the digest on newlines gives back one `name (username): stats` line per platform, in listing order |
| Mirror.DigestAppend | server/routes.ts:108-110 | order is kept and nothing is merged: the digest of a concatenation is the two digests on consecutive lines |
| Mirror.Prompt | server/routes.ts:112-123 | the digest appears intact between the fixed instructions |
| Mirror.Request | server/routes.ts:103-105 | a prompt is sent exactly when the listing is non-empty |
| Mirror.Respond | server/routes.ts:98-142 | as intended (see Findings), not as line 131 is written: no platforms: the fixed "Connect some platforms first…" text and no call; otherwise the engine's text returned verbatim, or 500 "AI Analysis failed" when the call fails |
| Mirror.RespondAsWritten | server/routes.ts:98-142 | as written: no platforms give the fallback text; every request with platforms ends in the 500 reply, even when the engine answers |
| Mirror.AsWrittenDiffers | server/routes.ts:126-131 | for one GitHub link and an engine that answers, the intended reply is that answer while the code as written sends a 500 |
| Routes.ParseConnect | server/routes.ts:45 | a body parses exactly when it is an object with string `name` and `username` and `apiKey` missing or a string; failures carry at least one issue, and the first names the first bad member |
| Routes.EncodeConnect | client/src/components/ConnectPlatformDialog.tsx:17-20 | the dialog sends name and username as strings and leaves `apiKey` out exactly when it is missing or empty |
| Routes.ParseEncode | shared/schema.ts:68-72 | every body the dialog sends passes validation; it parses back to the request unless the key was empty, and the stored `config` is the same either way |
| Routes.FirstIssue | server/routes.ts:60-66 | the 400 reply carries the first issue's message and its path joined by "." |
| Routes.ConfigFor | server/routes.ts:55 | `config` holds `apiKey` exactly when a non-empty key was given, and holds nothing else |
| Routes.ListPlatforms | server/routes.ts:35-39 | 200 with exactly the caller's rows |
| Routes.Connect | server/routes.ts:42-69 | invalid body: 400 with the first issue and no row added; valid body: 201 with one new row under the next serial value (which then advances, so no id is handed out twice), owned by the caller, holding the given name and username, `{apiKey}` or `{}` config, a snapshot simulated at the simulator's clock reading, and `lastUpdated` the insert time, a separate reading |
| Routes.Delete | server/routes.ts:72-81 | unknown id: 404 (checked first); not the owner: 401; in both cases the table is unchanged; the owner gets 204 and only that row goes |
| Routes.Sync | server/routes.ts:84-95 | unknown id: 404 (checked first); not the owner: 401; in both cases the table is unchanged; for the owner, `stats` is replaced wholesale by a snapshot for the stored name taken at the simulator's clock reading, `lastUpdated` becomes the update's own reading, and nothing else changes |
| Routes.Analyze | server/routes.ts:98-142 | as intended (see Findings): the reply is the analysis of a listing of exactly the caller's rows; the requested `platformIds` play no part |
| Routes.DeleteThenList | server/routes.ts:79-80 | after a 204 delete, listing the caller's platforms never shows the deleted id |
| Routes.DeleteThenConnect | server/routes.ts:42-81 | after a 204 delete, a connect that passes validation never reuses the deleted id |
| Routes.AnalyzeWithoutPlatforms | server/routes.ts:103-105 | a caller who owns no rows gets the fallback text and no prompt is built |
| Auth.Verify | server/replit_integrations/auth/replitAuth.ts:42-50 | an unknown user gives "Incorrect username."; a failed compare gives "Incorrect password."; the user gets in exactly when both checks pass |
| Auth.Safe | server/replit_integrations/auth/replitAuth.ts:92 | the user sent back keeps every member except `password`, unchanged |
| Auth.LoginReply | server/replit_integrations/auth/replitAuth.ts:85-96 | a rejection gives 401 with its message; success gives 200 with the user minus `password` |
| Auth.Login | server/replit_integrations/auth/replitAuth.ts:40-54 | a missing or empty username or password gives 401 "Missing credentials" and no lookup (the local strategy's own check before the callback at line 40 runs); otherwise an unknown username gives 401 "Incorrect username.", and a known one the verdict on the one user holding that name |
| Auth.UserStore.GetUser | server/replit_integrations/auth/replitAuth.ts:64 | returns the user stored under the id, or nothing exactly when there is none |
| Auth.UserStore.GetUserByUsername | server/replit_integrations/auth/replitAuth.ts:42 | finds a user exactly when the username is taken, and then it is the stored user with that name |
| Auth.UserStore.CreateUser | server/replit_integrations/auth/replitAuth.ts:117-124 | the insert succeeds and adds exactly that user when the id, the username and any email are all new; otherwise the table is unchanged |
| Auth.NewUser | server/replit_integrations/auth/replitAuth.ts:114-124 | the new user stores the password's hash, not the password, and an avatar URL made from the username |
| Auth.Register | server/replit_integrations/auth/replitAuth.ts:100-135 | missing or empty credentials: 400 and no user; taken username: 400 "Username already exists" and no user; an insert the table refuses: 500; otherwise 201 with exactly one user added and the reply's user has no password |
| Auth.RegisteredUserLogsIn | server/replit_integrations/auth/replitAuth.ts:46 | a user whose stored hash came from the password is let in by that password |
| Auth.RegisterThenLogin | server/replit_integrations/auth/replitAuth.ts:114-129 | a successful registration followed by a login with the same credentials gives 200 with the same password-free user |
| Auth.Normalize | server/replit_integrations/auth/replitAuth.ts:73 | `claims` becomes `{sub: id}` only when absent; existing claims are kept |
| Auth.DeserializeUser | server/replit_integrations/auth/replitAuth.ts:58-82 | an empty id or unknown user gives nothing; otherwise the stored user with `claims.sub` equal to its id, the owner id the platform handlers read |
| Auth.IsAuthenticated | server/replit_integrations/auth/replitAuth.ts:147-153 | the request goes on exactly when `isAuthenticated` is a function answering true; otherwise 401 |

## Findings

| source | as written | input that shows it | evidently intended | confidence | as-written member | corrected member |
|---|---|---|---|---|---|---|
| server/routes.ts:131 | reads the generated text as `response.response.text()`; the `@google/genai` `generateContent` result has a `text` member and no `response` member, so this throws a TypeError and the catch at lines 138-141 answers 500 | any analyze request from a user with at least one platform, e.g. one `github` link, with the engine answering normally | return the engine's text (`response.text`) as `{analysis}` | likely (depends on the client library's response type, which is not part of this model); not executed | Mirror.RespondAsWritten, Mirror.AsWrittenDiffers | Mirror.Respond, Routes.Analyze |

## Left out

- Text.ToLower: folds only the letters A–Z, not the rest of Unicode. For the two names compared, "leetcode" and "github", this decides the same way. The only non-ASCII character that lower-cases to a single ASCII letter is the Kelvin sign, which becomes 'k', and neither name contains a 'k'.
- Storage.DatabaseStorage.GetPlatforms: SQL promises no order, so the contract promises none. The model's scan lists rows by ascending id.
- Routes.ParseConnect: the connect input schema is not part of this model. It is assumed to be what drizzle-zod derives from the `platforms` columns: `name` and `username` required strings with no minimum length, `apiKey` an optional string, with issues reported in that order. The client parses the same `{name, username, apiKey}` object with that schema (`client/src/hooks/use-platforms.ts:28`).
- Routes.Delete and Routes.Sync take the path id as an integer. Requests whose id is not an integer are not modelled, because `Number(...)` of them is `NaN` or a fraction and the database call rejects it outside the handler's control. Ids outside the `serial` column's 32-bit range [-2^31, 2^31-1] are not covered either: the database rejects them as out of range for type integer, and since neither handler catches that, the request fails before any 404. The model, whose ids are unbounded, answers 404 for them.
- Storage.DatabaseStorage.CreatePlatform: the `serial` id column is a 32-bit integer, so the database refuses an insert once the sequence passes 2^31-1. The model's `nextId` is unbounded and never runs out, so Routes.Connect, which inserts through it, never meets that failure either.
- Routes.Connect: a stats-provider failure is not modelled. The simulator cannot fail, and the code has no handling for it.
- Routes.Sync: whether `lastUpdated` increases strictly from one sync to the next depends on the clock. The clock is a parameter here, so no ordering of readings is assumed.
- The insert call in connect passes `stats`, although the declared insert shape leaves it out. The store writes it anyway, so `Storage.DatabaseStorage.CreatePlatform` takes `stats` as a separate argument.
- `JSON.stringify`, ISO date formatting, the clock, UUID generation, bcrypt and the text-generation engine are outside the model. They are parameters, and only the facts stated above are assumed about them.
- `Math.random` floating-point arithmetic is replaced by a choice of any integer in range. The model does not capture the distribution.
- Session store, cookies, passport internals, `req.logIn` and logout are library plumbing and are not modelled. So are the Postgres connection and drizzle query building. The error paths that `next(err)` forwards to the framework are left out as well.
- Deserialize updates `user.claims` in place on an object freshly loaded for that request. It is modelled as returning the updated value, since no one else holds that object.
- `server/replit_integrations/auth/storage.ts` is not part of this model. `createUser` is taken to be a plain insert that fails on a duplicate id, username or non-null email.
- Auth.User and Auth.SafeUser leave out the `createdAt` and `updatedAt` columns (`shared/models/auth.ts:24-25`). Both are database-set timestamps, and the login and register replies carry them unchanged.
- Login and register read only string-or-missing members. Other JSON types in the body are not modelled.
- Concurrent requests are not modelled. Each handler is one sequential method call.
- The client pages, hooks and components are not modelled. The users table duplicated in `shared/schema.ts` and the `script/checkUser.ts` tool are not modelled either.
