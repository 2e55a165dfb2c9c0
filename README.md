# Discord bot dashboard backend, modelled in Dafny

This project models the Express backend of a Discord-bot admin dashboard. Two versions of
the server exist, and both are modelled:

- `project25/project25/server.js` is the newer server (module `Dashboard`).
- `server.js` is the older one (module `LegacyDashboard`).

The two versions share most of their code. That shared code is modelled once:

- `Common`: optional JSON fields and their JavaScript truthiness, route replies, and the
  decision a middleware takes.
- `Helpers`: `intToHexColor` (the role colour as `#rrggbb`) and `cryptoRandomString`
  (draws from the 62-character alphabet).
- `Auth`: the OAuth state token, the `/auth/discord/callback` handshake, logout, and the
  `requireAuth` / `requireAdmin` decisions.
- `Catalog`: manual-command records, the POST and DELETE bodies, and the merged command
  list `/api/commands` serves.
- `CommandLogs`: the in-memory command log. It is cut back to its newest 500 records once
  it holds more than 1000. Admins read the newest 200.

Each server is a `Server` class. It has the two JSON files `admins.json` and
`manualCommands.json`, each `None` while the file does not exist, plus the log buffer.
The store helpers are methods on that class: `ensureDataFiles`, `getAdmins`, `saveAdmins`,
`getManualCommands` and `saveManualCommands`. So is every route that reads or writes a
file. Each such route's contract gives the reply and the new state of both files,
including the writes `requireAdmin` makes through `getAdmins`. The OAuth routes
(`/auth/discord`, its callback and `/auth/logout`) are methods of `Auth` that act on the
`Session` alone. The bot's `POST /api/bot/command-log` is `Post` on the log buffer and
changes only that buffer. The pure functions beside the class state what each route body
computes, and the lemmas state what holds over many requests.

Inputs from outside become parameters:
- each `Math.random()` draw is a real in [0, 1);
- `Date.now()` is a natural number;
- `new Date().toISOString()` is a string;
- the replies of Discord's endpoints are values of a datatype. For the command list these are: the call threw, the body was not an array, or the list of commands;
- request-body fields are `Option` values, where `undefined` and `null` are `None`: strings for the text fields, a boolean for `dm_permission`, and a map from strings to strings for the log's `options`.

Behaviour of the code a reader might not expect, which the model keeps:
- The OAuth state token is never cleared after a successful callback. The same state
  therefore stays acceptable for further callbacks in that session.
- The callback does not check the profile response. A profile without an `id` gives a
  session user whose id is undefined. That user is in no admin list.
- The manual-command id is `manual_` followed by `Date.now()`, so it is not unique.
  Deleting by name removes only the first record with that name.

## Model

| member | source | states |
|---|---|---|
| Helpers.IntToHexColor | project25/project25/server.js:106-109 | zero gives `#000000`; every colour gives `#` followed by at least six characters |
| Helpers.HexRoundTrip | project25/project25/server.js:108 | reading back the hexadecimal digits `toString(16)` writes gives the number again, and they are all hex digits |
| Helpers.HexColorDecodes | project25/project25/server.js:106-109 | a positive colour becomes `#` followed by hex digits that denote that colour exactly |
| Helpers.HexColorWidth | project25/project25/server.js:106-109 | every 24-bit colour is rendered in exactly seven characters |
| Helpers.HexWidth | project25/project25/server.js:108 | a number below 16^k has at most k hexadecimal digits |
| Helpers.ZeroPaddingValue | project25/project25/server.js:108 | leading zeros from `padStart` do not change the value the digits denote |
| Helpers.JsHex | project25/project25/server.js:108 | `toString(16)` of any integer: a leading '-' exactly for negatives, and the digits denote the absolute value |
| Helpers.PadStart | project25/project25/server.js:108 | `padStart`: the length is the larger of the width and the input length; the input is kept at the end and everything in front is the fill character |
| Helpers.Pick | project25/project25/server.js:115 | `Math.floor(r * 62)`: an index into the alphabet, the largest integer not above r times 62 |
| Helpers.CryptoRandomString | project25/project25/server.js:111-118 | the string has the requested length; character i is the alphabet character draw i selects; all characters are in the alphabet |
| Auth.IsAdmin | project25/project25/server.js:93-95 | `includes`: true exactly when some position of the list holds the id; an undefined id is in no list |
| Auth.BeginLogin | project25/project25/server.js:143-145 | the state token has 32 alphabet characters and becomes the session's `oauthState`; the session user is unchanged |
| Auth.StateAccepted | project25/project25/server.js:162 | a state is accepted only when the session holds a non-empty token equal to it and the code is present; a session with no token accepts nothing |
| Auth.UserOf | project25/project25/server.js:198-202 | the session user keeps the profile's id and avatar; the username is the profile's username, '#', then the discriminator, with "undefined" for a missing part |
| Auth.LoginCallback | project25/project25/server.js:159-209 | 400 "Invalid OAuth state" exactly when code or state is missing or the state differs from the stored one, and then no request is made; token error gives 500 "OAuth token exchange failed"; a thrown call gives 500 "OAuth callback error"; a redirect to `/#admin` happens exactly when both exchanges succeed, and then the profile becomes the session user; the stored state is never cleared |
| Auth.Logout | project25/project25/server.js:211-215 | the session keeps neither user nor state; the reply is success |
| Auth.RequireAuth | project25/project25/server.js:218-223 | passes exactly when the session holds a user, otherwise 401 "Not authenticated" |
| Auth.AdminGate | project25/project25/server.js:225-234 | passes exactly for a session user listed as admin; 401 "Not authenticated" exactly when there is no user, 403 "Not an admin" exactly for an unlisted user |
| Catalog.Decimal | project25/project25/server.js:308 | the decimal text of `Date.now()`: at least one character, all digits |
| Catalog.DecimalRoundTrip | project25/project25/server.js:308 | reading the digits of that text back gives the time again |
| Catalog.NewManualCommand | project25/project25/server.js:307-314 | the id is `manual_` then digits that denote the time; name and `type` "manual"; a description sent is kept and is "" exactly when none was given; permissions sent are kept and are null exactly when none were given; `dm_permission` false only when false was sent |
| Catalog.PostManual | project25/project25/server.js:299-320 | 400 "Name is required" exactly when the name is missing or empty; otherwise the record's id is `manual_` then digits denoting the time, it keeps the name, `type` is "manual", an empty or missing description becomes "", missing permissions become null, and `dm_permission` defaults to true |
| Catalog.FirstNamed | project25/project25/server.js:329 | the position found holds the name and no earlier position does; none is found exactly when no record has the name |
| Catalog.DeleteManual | project25/project25/server.js:322-339 | 400 "name is required" without a name; 404 "Command not found" exactly when no record has the name; success whenever a record has it, and then exactly the first record with that name is removed and the rest keep their order |
| Catalog.PostThenDeleteRestores | project25/project25/server.js:299-339 | adding a command under an unused name and then deleting that name gives back the original list |
| Catalog.FormatRemote | project25/project25/server.js:276-284 | a Discord entry keeping id, name, permissions, `dm_permission` and type, with the description "" when it is missing |
| Catalog.FormatAll | project25/project25/server.js:275-283 | one Discord entry per remote command, in order, each projected the same way |
| Catalog.TagManual | project25/project25/server.js:285-288 | one manual entry per stored record, in order, carrying the record unchanged |
| Catalog.Merge | project25/project25/server.js:263-296 | Discord's commands first, exactly their projection, and then the manual ones; the length is the sum of both; remote fields are kept with the description defaulting to ""; each stored record is carried unchanged |
| Catalog.PartsOfConcat | project25/project25/server.js:274-288 | splitting a concatenation by source splits each part |
| Catalog.PartsOfFormatted | project25/project25/server.js:275-283 | the Discord part of the projected list has only Discord entries, all of them |
| Catalog.PartsOfTagged | project25/project25/server.js:285-288 | the tagged manual list has only manual entries, and they are the stored records |
| Catalog.MergeSplits | project25/project25/server.js:263-296 | splitting the served list by source gives back exactly the stored manual list and the projected Discord list |
| CommandLogs.EntryOf | project25/project25/server.js:405-413 | the stored record carries the arrival time and every body field as sent, with `options` defaulting to `{}` |
| CommandLogs.TrimKeepsNewest | project25/project25/server.js:415-417 | the trim after a push keeps the newest records in order: a buffer within 1000 records is unchanged, a longer one is cut to its newest 500 |
| CommandLogs.PostsStayBounded | project25/project25/server.js:402-420 | after any sequence of posts the log holds at most 1000 records, and they are the newest records posted, in arrival order |
| CommandLogs.PostsBelowCapacity | project25/project25/server.js:402-420 | as long as at most 1000 records have gone in, nothing is dropped |
| CommandLogs.OverflowKeepsNewest | project25/project25/server.js:415-417 | the 1001st post to an empty log leaves exactly the newest 500 records |
| CommandLogs.LogBuffer.Post | project25/project25/server.js:402-420 | the log becomes the old log with the record pushed and then trimmed; the buffer stays within 1000 records; the reply is success |
| CommandLogs.LogBuffer.Recent | project25/project25/server.js:398-400 | the newest min(200, length) records, oldest first |
| Dashboard.Healed | project25/project25/server.js:67-77 | the main admin is in the healed list; the old list is a prefix of it; at most the main admin is added; a list that already holds it is unchanged |
| Dashboard.AddAdminResult | project25/project25/server.js:344-360 | success exactly for a non-empty id not yet listed; 400 "userId is required" or 400 "User is already admin" otherwise; on success the id is appended and the length grows by one |
| Dashboard.Without | project25/project25/server.js:387 | the filtered list holds exactly the other ids; it is shorter exactly when the id was listed; it is unchanged when the id was not listed |
| Dashboard.WithoutDistributes | project25/project25/server.js:387 | the filter keeps the order of what it keeps |
| Dashboard.RemoveAdminResult | project25/project25/server.js:376-395 | 400 without an id; 400 "You cannot remove the main admin." for the main admin; 404 "Admin not found" exactly when the id is not listed; otherwise the id is no longer an admin and every other id keeps its status |
| Dashboard.AdminViews | project25/project25/server.js:363-373 | one row per listed id, in order; `isMain` exactly for the main admin |
| Dashboard.AdminsAfter | project25/project25/server.js:344-395 | after any add or remove request the main admin is listed |
| Dashboard.MainAdminSurvives | project25/project25/server.js:67-77 | after any sequence of add and remove requests the main admin is still listed, including after attempts to remove it |
| Dashboard.AddGrantsRemoveRevokes | project25/project25/server.js:344-395 | adding an id makes it an admin; removing an id other than the main admin revokes it; no other admin is lost |
| Dashboard.WithoutKeepsDistinct | project25/project25/server.js:387 | filtering a list without duplicates leaves a list without duplicates |
| Common.AppendKeepsDistinct | project25/project25/server.js:353-357 | appending an id that is not listed keeps the list free of duplicates |
| Dashboard.AdminsAfterKeepsDistinct | project25/project25/server.js:344-395 | healing, adding and removing never list an admin twice |
| Dashboard.MainAdminAlwaysPasses | project25/project25/server.js:225-234 | the main admin passes `requireAdmin` whatever the stored list was |
| Dashboard.Server.constructor | project25/project25/server.js:50-65 | at start-up each missing file is seeded, with the main admin and with `[]`, and the log is empty |
| Dashboard.Server.EnsureDataFiles | project25/project25/server.js:50-65 | a missing admins file becomes `[MAIN_ADMIN_ID]` and a missing manual file becomes `[]`; existing files are kept |
| Dashboard.Server.SaveAdmins | project25/project25/server.js:79-81 | the admins file is replaced and the other file is untouched |
| Dashboard.Server.GetAdmins | project25/project25/server.js:67-77 | returns the seeded, healed list and writes it back, so the file always lists the main admin afterwards |
| Dashboard.Server.SaveManualCommands | project25/project25/server.js:89-91 | the manual file is replaced and the other file is untouched |
| Dashboard.Server.GetManualCommands | project25/project25/server.js:83-87 | returns the seeded manual list; only seeding writes |
| Dashboard.Server.RequireAdmin | project25/project25/server.js:225-234 | 401 without a user and nothing is read; otherwise the gate decides on the healed list, and reading it seeds and heals the store |
| Dashboard.Server.Me | project25/project25/server.js:237-246 | the session user, and `isAdmin` exactly when that user is on the healed list |
| Dashboard.Server.Commands | project25/project25/server.js:263-296 | 500 "Failed to fetch commands" when Discord's call throws, with both files untouched; 500 when the body is not an array, after the manual list was read, so missing files are seeded; otherwise the merge of Discord's list and the seeded manual list |
| Dashboard.Server.AddManualCommand | project25/project25/server.js:299-320 | behind the gate, on success exactly the returned record is appended to the stored list; on failure the list is as read |
| Dashboard.Server.DeleteManualCommand | project25/project25/server.js:322-339 | behind the gate, the stored list becomes the `DeleteManual` result on success and stays as read otherwise |
| Dashboard.Server.AddAdmin | project25/project25/server.js:344-360 | behind the gate, the reply is `AddAdminResult` on the healed list, and the file holds the list after that request |
| Dashboard.Server.ListAdmins | project25/project25/server.js:363-373 | behind the gate, one row per healed admin, and some row is the main admin |
| Dashboard.Server.RemoveAdmin | project25/project25/server.js:376-395 | behind the gate, the reply is `RemoveAdminResult` on the healed list, and the file holds the list after that request |
| Dashboard.Server.CommandLogsRecent | project25/project25/server.js:398-400 | behind the gate, the newest 200 log records |
| Dashboard.FreshStartSeedsMainAdmin | project25/project25/server.js:50-65 | a server started without files lists only the main admin and no manual commands |
| LegacyDashboard.AddAdminResult | server.js:315-328 | success exactly for a non-empty id; an id already listed leaves the list unchanged, any other id is appended |
| LegacyDashboard.AddAdminIdempotent | server.js:315-328 | adding the same id twice has the effect of adding it once |
| LegacyDashboard.AddAdminKeepsDistinct | server.js:321-324 | adding never lists an id twice |
| LegacyDashboard.Server.constructor | server.js:63-77 | at start-up each missing file is seeded, with the default admin and with `[]` |
| LegacyDashboard.Server.EnsureDataFiles | server.js:63-77 | a missing admins file becomes `[DEFAULT_ADMIN_ID]` and a missing manual file becomes `[]` |
| LegacyDashboard.Server.SaveAdmins | server.js:85-87 | the admins file is replaced and the other file is untouched |
| LegacyDashboard.Server.GetAdmins | server.js:79-83 | returns the stored list exactly as it is, with no heal |
| LegacyDashboard.Server.SaveManualCommands | server.js:95-97 | the manual file is replaced and the other file is untouched |
| LegacyDashboard.Server.GetManualCommands | server.js:89-93 | returns the seeded manual list |
| LegacyDashboard.Server.RequireAdmin | server.js:217-226 | 401 without a user; otherwise the gate decides on the stored list as it is |
| LegacyDashboard.Server.Me | server.js:231-241 | the session user, and `isAdmin` exactly when that user is on the stored list |
| LegacyDashboard.Server.Commands | server.js:257-290 | 500 "Failed to fetch commands" when Discord's call throws, with both files untouched; 500 when the body is not an array, after the manual list was read, so missing files are seeded; otherwise the merge of Discord's list and the seeded manual list |
| LegacyDashboard.Server.AddManualCommand | server.js:293-312 | behind the gate, on success exactly the returned record is appended |
| LegacyDashboard.Server.AddAdmin | server.js:315-328 | behind the gate, the reply is the idempotent `AddAdminResult`, and the file holds its list |
| LegacyDashboard.Server.CommandLogsRecent | server.js:331-333 | behind the gate, the newest 200 log records |
| LegacyDashboard.FreshStartSeedsDefaultAdmin | server.js:63-77 | a server started without files lists only the default admin |

## Left out

- The guild, role, analytics and bot-info routes (`/api/admin/guilds`, `/api/admin/guilds/:id/roles`, `/api/admin/analytics`, `/api/bot/info`) and `refreshAnalytics`: they only read discord.js client caches, which are outside this model. `intToHexColor`, which the roles route uses, is modelled.
- The authorize URL `/auth/discord` redirects to: building URL query parameters is not modelled, only the state token it carries.
- The request bodies sent to Discord's token endpoint and the `Bot` authorization header of `/api/commands`: configuration values that are passed through unchanged.
- JSON parsing: files and request bodies are taken to parse. Malformed files, which make the routes throw, are not modelled. Neither are body fields of non-string type, such as a numeric `userId`.
- Helpers.IntToHexColor: `!colorInt` also sends `undefined`, `null` and `NaN` to `#000000`; the model covers integer colours only.
- The file system and the timing of writes: writing a file with unchanged content is not distinguished from not writing it. `fs.mkdir` of the data directory is not modelled.
- Concurrency: overlapping requests can interleave between reading and saving a file and lose an update. Each route is modelled as running alone.
- `express.static`, the SPA fallback route and `app.listen`: they serve files and start the process.
- CommandLogs.EntryOf: the log body's `options` is any JSON object and is stored as sent; the model narrows it to a map from strings to strings, so option values that are numbers, booleans or nested objects are not represented.
- Auth.UserOf: a request field is `None` whether it was `undefined` or `null`, and a template literal writes both as "undefined"; JavaScript would write "null" for a `null` username or discriminator.
- Dashboard.AdminViews: the `tag` field of each row of `GET /api/admin/admins` is always `null` and is not modelled.
- Auth.Logout: the session is destroyed asynchronously; the model clears both fields at once.
- The browser client `public/app.js` is not part of this model.
