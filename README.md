# Rekomendr.AI: usage quota, soft wall and recommendation pages in Dafny

This project models the core of Rekomendr.AI. Rekomendr.AI is a web app that takes a free-text prompt, asks a language model for five recommendations and shows them as cards. The core has three parts, modelled file by file:

- **Usage accounting.**
  - The server-side quota store (`src/lib/quota.ts`): a per-client, per-UTC-day record holding a count and the chain ids already counted. It is a `class` whose map the methods update.
  - Its routes: `/api/quota` and the rate-limited `/api/recs` handler with its slug and sanitising helpers.
  - The browser-side soft wall (`src/lib/softWall.ts`), with tiers, daily counters and the refine chain kept in `localStorage`.
  - The beta unlock flags (`src/lib/betaUnlock.ts`).
- **Admin and data routes.**
  - `/api/admin_stats`: per-day counts over a fourteen-day window.
  - `/api/admin_recent`: the latest searches and votes, merged and sorted newest first. The sort is an insertion sort on an `array`.
  - `/api/seed`: fixed seed lists per vertical.
  - `/api/feedback`: a vote record logged with its defaults.
- **Pages.**
  - The legacy search hook.
  - The newer results view, with session thumbs, disliked-title filtering, suggestion chips and the composed prompt.
  - The results page of the single-page app, with the token gate and the parser for the model's line-per-item answer.
  - The top-level token counters of `src/App.js`.
  - The monthly counter of the app-router home page.
  - The `/results` route.

Shared modules:

| module | what it models |
|---|---|
| `Base` | the JavaScript primitives the core relies on: `trim`, `toLowerCase`, `parseInt`, `Number`, `String`, `slice`, `split`, `padStart` |
| `Json` | JSON values, with `JSON.stringify` and `JSON.parse` proved to round-trip |
| `Browser` | `localStorage` as a class over a map, plus a flag for "running in a browser" |
| `Http` | requests and a response object whose methods record status, headers and body |
| `Dates` | the proleptic Gregorian calendar, from a millisecond instant to the `toISOString()` day key |

Two tier schemes exist in the source and both are modelled, separately:

- `Quota.Tier`: guest, signed or paid, with beta-flag caps 5, 10 and 15.
- `SoftWall.Tier`: guest, free or paid, with caps 5, 10 and unlimited.

Two behaviours of the code are worth stating up front:

- The beta flags are not additive. The second flag alone already gives 15.
- The soft wall's daily key uses the browser's local calendar date, while the server-side quota store keys its records by the UTC date.

Calls the model cannot see are passed in as parameters of the operations:

- network, database and language-model calls;
- the clock;
- `Math.random`.

The server-side quota store's map is keyed by the client id from the cookie. The model treats that map as a plain map, which is not how JavaScript objects behave for inherited keys (see Left out).

## Model

| member | source | states |
|---|---|---|
| Quota.ParseCookies | src/lib/quota.ts:34-43 | the loop fills exactly the jar described part by part (later parts override earlier ones, empty names skipped); no header gives no cookies |
| Quota.CookieJarNames | src/lib/quota.ts:37-41 | a name holds a cookie exactly when some part carries that non-empty name |
| Quota.NamedPartOf | src/lib/quota.ts:37-41 | every cookie in the jar comes from a part carrying its name |
| Quota.NamedPartKept | src/lib/quota.ts:37-41 | a part with a non-empty name leaves that name in the jar |
| Quota.CookieJarLastWins | src/lib/quota.ts:37-41 | a name's value is the value of the last part that carries it |
| Quota.CookiePairOf | src/lib/quota.ts:38-39 | a `name=value` part reads back as that name and value, whatever `=` signs the value contains |
| Quota.AppendCookieKeeps | src/lib/quota.ts:51-58 | adding a cookie keeps every cookie already in Set-Cookie, in order, and adds exactly the new one |
| Quota.SetCookie | src/lib/quota.ts:45-59 | only the Set-Cookie header changes: the cookie line (path, HttpOnly, SameSite=Lax, expiry and Max-Age from the day count) is appended to what was there; status and body are untouched |
| Quota.Base36 | src/lib/quota.ts:66 | `n.toString(36)` is a non-empty run of characters that `encodeURIComponent` leaves alone |
| Quota.NewClientId | src/lib/quota.ts:66 | a new client id starts with `rex_` and needs no URI escaping |
| Quota.GetOrCreateClientId | src/lib/quota.ts:61-70 | a request with a non-empty `rex_id` cookie keeps that id and no cookie is set; otherwise a fresh `rex_` id is returned and its cookie appended; the id is never empty |
| Quota.NewClientCookie | src/lib/quota.ts:65-68 | a new client gets exactly one more Set-Cookie line, for `rex_id` with a 180-day lifetime, and earlier lines are kept |
| Quota.GetEffectiveDailyCap | src/lib/quota.ts:82-89 | paid is unlimited; otherwise the cap is 15 with the second beta flag, 10 with only the first, and 5 with neither |
| Quota.CapMonotone | src/lib/quota.ts:84-87 | unlocking more beta steps never lowers the cap |
| Quota.Remaining | src/lib/quota.ts:132 | remaining is unlimited exactly for an unlimited cap; otherwise it is `cap - count`, and 0 once the count reaches the cap |
| Quota.CountWithinCap | src/lib/quota.ts:123-130 | counting a chain never takes a day's count past a finite cap |
| Quota.CountChainCases | src/lib/quota.ts:121-130 | a chain is counted exactly when its id is new today and the count is below the cap; then the count rises by one and the id is recorded, else the day is unchanged |
| Quota.CountKeepsConsistent | src/lib/quota.ts:123-130 | counting keeps the day's count equal to the number of ids recorded, each by-value id once |
| Quota.CountTwice | src/lib/quota.ts:107-130 | ending the same (string, number or boolean) chain twice counts it at most once: the second call reports not counted and changes nothing |
| Quota.StartChain | src/lib/quota.ts:102-105 | a suggested chain id is `ch_` followed by at most eight random characters, exactly eight when enough are available |
| Quota.UpdateKeepsConsistent | src/lib/quota.ts:92-96 | replacing one day record with a consistent one keeps the whole store consistent |
| Quota.QuotaStore.constructor | src/lib/quota.ts:25-28 | the store starts empty |
| Quota.QuotaStore.EnsureDay | src/lib/quota.ts:92-96 | returns the existing record of (client, day) or a new empty one, which is stored; no other record changes and the store stays consistent |
| Quota.QuotaStore.CountOnDay | src/lib/quota.ts:118-130 | the (client, day) record is replaced by the result of one counting step, and the store stays consistent |
| Quota.QuotaStore.EndChainAndCount | src/lib/quota.ts:107-142 | reports the client id, the UTC day, the cap and the counting verdict; only the (client, today) record changes, by one counting step; remaining follows the cap; the client cookie is set as in `getOrCreateClientId` |
| Quota.QuotaStore.GetUsage | src/lib/quota.ts:144-165 | reports today's count, the cap and what remains; at most an empty record is added for today, nothing changes when it exists |
| Quota.QuotaStore.ResetTodayForDev | src/lib/quota.ts:167-175 | an existing record for (client, today) is reset to zero with no ids; without one nothing changes |
| Http.BodyOrEmpty | src/pages/api/quota.ts:37 | `req.body \|\| {}` is always truthy and is the body itself whenever that is truthy |
| Http.Response.constructor | src/pages/api/quota.ts:27 | a response starts with no headers, status 200 and nothing sent |
| Http.Response.SetHeader | src/pages/api/quota.ts:56 | `setHeader` binds one header and leaves status and body alone |
| Http.Response.Send | src/pages/api/quota.ts:32 | `res.status(code).json(body)` sets the status and the body and leaves the headers alone |
| Http.Response.Crash | src/pages/api/recs.ts:107-110 | an exception that escapes a route gives status 500 and leaves the headers alone |
| QuotaApi.PostBody | src/pages/api/quota.ts:37 | a text body is parsed (a parse failure is the caught exception); any other body is `req.body \|\| {}` |
| QuotaApi.TierFromBody | src/pages/api/quota.ts:18-22 | a POST names `signed` or `paid` exactly when its `tier` property is that string; anything else is a guest |
| QuotaApi.TierFromHeader | src/pages/api/quota.ts:23-24 | a GET names `signed` or `paid` exactly when the `x-rex-tier` header is that string |
| QuotaApi.BetaFromBody | src/pages/api/quota.ts:6-10 | the flags are the truthiness of `beta.beta1` and `beta.beta2` when `beta` is truthy, and both false otherwise |
| QuotaApi.BetaFromHeaders | src/pages/api/quota.ts:11-15 | each flag is set exactly when its header is the string `1` |
| QuotaApi.ClassifyPost | src/pages/api/quota.ts:36-53 | a POST is a bad request exactly when its text body does not parse; it ends a chain only for `action: "end"` with a truthy `chainId`, using the body's tier and flags; a missing id and any other action are told apart |
| QuotaApi.Handle | src/pages/api/quota.ts:27-58 | GET answers 200 with today's usage under the header tier and flags and at most adds an empty record; POST answers 400 with the matching error and no change, or 200 with the result of one counting step; other methods answer 405 with `Allow: GET, POST`; the store stays consistent |
| SoftWall.TierOf | src/lib/softWall.ts:19-23 | a stored tier name counts as `free` or `paid` exactly when it lower-cases to that name; everything else is a guest |
| SoftWall.TierNameRoundTrip | src/lib/softWall.ts:22-26 | a tier written by `setTier` reads back as the same tier |
| SoftWall.GetTier | src/lib/softWall.ts:19-23 | on the server the tier is `guest`; in a browser it is the stored name (default `guest`) read case-insensitively |
| SoftWall.SetTier | src/lib/softWall.ts:24-27 | only the tier entry changes, nothing on the server, and `getTier` then returns the tier that was set |
| SoftWall.CountKey | src/lib/softWall.ts:30-36 | a day's counter key starts with `rekomendr.searches.` |
| SoftWall.TodayKey | src/lib/softWall.ts:30-36 | `getTodayKey` is the counter key of the clock's local calendar date |
| SoftWall.CountKeyParts | src/lib/softWall.ts:32-35 | the key is the prefix, the unpadded year, then the month and the day padded to two digits, at fixed offsets |
| SoftWall.CountKeyInjective | src/lib/softWall.ts:30-36 | two valid dates share a counter key exactly when they are the same date |
| SoftWall.CountKeyDistinct | src/lib/softWall.ts:4-6 | a counter key never collides with the tier entry or the chain entry |
| SoftWall.GetLimitForTier | src/lib/softWall.ts:37-41 | paid is unlimited (`Infinity`), free is capped at 10, guest at 5 |
| SoftWall.LimitOrder | src/lib/softWall.ts:37-41 | every count the guest cap admits is admitted under every tier, and every count the free cap admits is admitted under free and paid |
| SoftWall.CountAbsent | src/lib/softWall.ts:42-46 | a day with no entry counts 0 |
| SoftWall.CountWritten | src/lib/softWall.ts:45-50 | a count written with `String(n)` is read back by `parseInt` as `n`, negatives included |
| SoftWall.CountUntouched | src/lib/softWall.ts:42-51 | writing any other entry leaves a day's count as it was |
| SoftWall.GetCount | src/lib/softWall.ts:42-46 | on the server the count is 0 |
| SoftWall.Incremented | src/lib/softWall.ts:47-51 | the storage after an increment has the same entries plus the day's key, every other entry unchanged |
| SoftWall.IncrementKey | src/lib/softWall.ts:47-51 | the entry is rewritten as one more than its previous count, so its count goes up by exactly one |
| SoftWall.Increment | src/lib/softWall.ts:47-51 | on the server nothing changes; in a browser only today's entry changes and today's count goes up by one |
| SoftWall.CanSearchNow | src/lib/softWall.ts:52-57 | the gate reports the given or stored tier, its cap and today's count, and admits exactly when the tier is paid or the count is below the cap |
| SoftWall.GateAndMaybeIncrement | src/lib/softWall.ts:58-63 | returns the gate as it was before the call; a refused gate changes nothing, an admitted one counts one search, and a count within a finite cap stays within it |
| SoftWall.ReadChain | src/lib/softWall.ts:66-77 | a chain is returned only when the stored text parses to an object with a truthy `id`, and every such stored chain is returned; missing, empty or unparsable text gives null |
| SoftWall.WriteChain | src/lib/softWall.ts:78-82 | null removes the chain entry, a chain is stored as its JSON text and parses back to itself; nothing on the server |
| SoftWall.ChainReadBack | src/lib/softWall.ts:66-82 | a stored chain with a truthy `id` is read back unchanged |
| SoftWall.GetActiveChain | src/lib/softWall.ts:83-85 | the active chain is what `readChain` returns |
| SoftWall.EndChain | src/lib/softWall.ts:86-88 | only the chain entry is removed, and afterwards there is no active chain |
| SoftWall.ChainKeysDistinct | src/lib/softWall.ts:8-14 | the five property names of a chain record are pairwise distinct |
| SoftWall.ChainLookup | src/lib/softWall.ts:95-101 | a property of the new chain record is read from the last part of the object literal that binds it |
| SoftWall.NewChain | src/lib/softWall.ts:95-101 | the new chain has the random `id`, `startedAt` set to the clock, `refines` 0, and `vertical` and `baseQuery` exactly when they were given |
| SoftWall.NewChainActive | src/lib/softWall.ts:96-102 | a freshly stored chain is the active one exactly when its random token is not empty |
| SoftWall.BeginChain | src/lib/softWall.ts:90-104 | the gate is checked before counting; a refused gate returns no chain and changes nothing; an admitted one counts one search, stores the new chain and returns it, and the chain is active exactly when its token is not empty |
| SoftWall.CountAndStore | src/lib/softWall.ts:94-102 | the two writes of an admitted `beginChain`: the day's count goes up by one and the chain entry holds the new chain's text |
| SoftWall.PlusOne | src/lib/softWall.ts:110 | `refines + 1` follows JavaScript: a missing counter gives NaN, null gives 1, a number `n` gives `n + 1` |
| SoftWall.CapRefines | src/lib/softWall.ts:110 | `Math.min(x, 3)` keeps NaN as NaN and otherwise never exceeds 3, returning either `x` or 3 |
| SoftWall.NumberJson | src/lib/softWall.ts:81 | `JSON.stringify` stores a number as itself and NaN as null |
| SoftWall.Refined | src/lib/softWall.ts:110 | the next chain differs from the old one only in `refines`, which holds the capped counter |
| SoftWall.RefinesClimbToLimit | src/lib/softWall.ts:106-113 | from a fresh chain the counter goes 1, 2, 3 and then stays at 3 |
| SoftWall.RecordRefine | src/lib/softWall.ts:106-113 | with no active chain nothing changes and the limit is not reported; otherwise the refined chain is stored back, stays active and is returned, and the limit is reported exactly when the counter reaches 3 |
| BetaUnlock.StatusOf | src/lib/betaUnlock.ts:17-22 | each flag is the truthiness of the stored property, the e-mail is whatever was stored, and a parsed value that is not an object gives no unlocks |
| BetaUnlock.Read | src/lib/betaUnlock.ts:12-26 | no window, no entry, an empty entry or unparsable text give no unlocks; otherwise the status read from the parsed record |
| BetaUnlock.StatusJson | src/lib/betaUnlock.ts:28-31 | the stored record reads back as the status it was written from |
| BetaUnlock.Write | src/lib/betaUnlock.ts:28-31 | only the beta entry changes, to the status's JSON text, and `read()` then returns that status (no unlocks on the server) |
| BetaUnlock.GetBetaStatus | src/lib/betaUnlock.ts:33-35 | the status is what `read()` returns |
| BetaUnlock.Granted1 | src/lib/betaUnlock.ts:37-44 | the first unlock is set and the second flag and the e-mail are kept |
| BetaUnlock.Granted2 | src/lib/betaUnlock.ts:46-54 | the second unlock is set and the first flag kept; an already granted status is unchanged; a non-empty e-mail is recorded only by the grant that sets the flag |
| BetaUnlock.GrantIdempotent | src/lib/betaUnlock.ts:37-54 | granting a step twice is granting it once, whatever e-mail the second grant brings |
| BetaUnlock.GrantBeta1 | src/lib/betaUnlock.ts:37-44 | returns the granted status; storage changes only when the unlock is new, and then reads back as the returned status |
| BetaUnlock.GrantBeta2 | src/lib/betaUnlock.ts:46-54 | returns the granted status; storage changes only when the unlock is new, and then reads back as the returned status |
| BetaUnlock.ClearBetaForDev | src/lib/betaUnlock.ts:56-58 | only the beta entry is removed, after which no unlock is read |
| Browser.LocalStorage.constructor | src/lib/softWall.ts:20-21 | storage starts with the given window flag and entries |
| Browser.LocalStorage.GetItem | src/lib/softWall.ts:69 | `getItem` gives the stored value exactly for keys that were set, and null otherwise |
| Browser.LocalStorage.GetItemOr | src/lib/softWall.ts:21 | `getItem(key) \|\| fallback` gives the stored value when it is present and not empty, else the fallback |
| Browser.LocalStorage.SetItem | src/lib/softWall.ts:26 | `setItem` binds the key to the value and changes nothing else |
| Browser.LocalStorage.RemoveItem | src/lib/softWall.ts:80 | `removeItem` drops the key and changes nothing else |
| Json.Lookup | src/lib/softWall.ts:71-72 | a property read finds a value only when the object binds the key to it, and finds nothing when no field has that key |
| Json.LookupAppend | src/lib/softWall.ts:110 | in an object built of two parts a key is read from the later part when it binds it, else from the earlier one |
| Json.LookupAppend3 | src/lib/softWall.ts:95-101 | the same for an object built of three parts |
| Json.Defined | src/lib/softWall.ts:98-99 | a property that may be undefined binds its key to exactly the value given, and no other key |
| Json.SetField | src/lib/softWall.ts:110 | `{ ...obj, key: v }` binds `key` to `v` and leaves every other property as it was |
| Json.ReplaceField | src/lib/softWall.ts:110 | overwriting a present property binds it to the new value and leaves every other property as it was |
| Json.SetDefined | src/lib/betaUnlock.ts:50 | setting a property to a value that may be undefined binds it when defined and leaves the object as it was otherwise |
| Json.Stringify | src/lib/softWall.ts:81 | `JSON.stringify` produces non-empty text starting with a character a JSON value can start with |
| Json.StrBodyRoundTrip | src/lib/softWall.ts:71-81 | an escaped string reads back as itself, up to its closing quote |
| Json.NumRoundTrip | src/lib/softWall.ts:71-81 | an integer written by `JSON.stringify` reads back as the same integer |
| Json.ValueRoundTrip | src/lib/softWall.ts:71-81 | every value written by `JSON.stringify` reads back as itself, whatever separator follows it |
| Json.ArrayRoundTrip | src/lib/softWall.ts:71-81 | an array's text reads back as the same elements |
| Json.ObjectRoundTrip | src/lib/softWall.ts:71-81 | an object's text reads back as the same fields in the same order |
| Json.ParseStringify | src/lib/softWall.ts:71-81 | `JSON.parse(JSON.stringify(v))` is `v` |
| Json.Parse | src/lib/softWall.ts:71 | `JSON.parse` throws on blank text and on text starting with a character no value can start with |
| Json.Hex4 | src/pages/api/recs.ts:70 | four hex digits give a code unit below 0x10000, and need four characters |
| Json.SurrogatePair | src/pages/api/recs.ts:70 | an escaped surrogate pair, such as `\ud83d\ude00`, reads as the one character it encodes |
| Recs.WindowBound | src/pages/api/recs.ts:8-18 | within one window, the requests already counted plus those let through never exceed 10 |
| Recs.FreshWindowBound | src/pages/api/recs.ts:4-18 | an IP seen for the first time gets at most 10 requests through in the next 60 seconds |
| Recs.RateLimiter.constructor | src/pages/api/recs.ts:7 | the limiter starts with no records |
| Recs.RateLimiter.RateLimit | src/pages/api/recs.ts:8-18 | a missing or expired record starts a new window counting 1; a full window refuses without change; otherwise the count goes up by one; only this IP's record changes and every record keeps a count between 1 and 10 |
| Recs.AlnumsAppend | src/pages/api/recs.ts:76 | the letters and digits of a concatenation are those of its parts, in order |
| Recs.AlnumsOfDashes | src/pages/api/recs.ts:76 | a run of dashes has no letters or digits |
| Recs.SkipRun | src/pages/api/recs.ts:76 | a leading run of other characters is dropped up to the next letter or digit |
| Recs.AlnumsOfSkipRun | src/pages/api/recs.ts:76 | dropping such a run loses no letter or digit |
| Recs.Dashes | src/pages/api/recs.ts:76 | `replace(/[^a-z0-9]+/g, "-")` leaves only letters, digits and single dashes |
| Recs.DashesAlnums | src/pages/api/recs.ts:76 | replacing the runs keeps every letter and digit, in order |
| Recs.DashesNoop | src/pages/api/recs.ts:76 | text already made of letters, digits and single dashes is left as is |
| Recs.DropLeadingDashes | src/pages/api/recs.ts:76 | `replace(/^-+/, "")` leaves a suffix that does not start with a dash |
| Recs.DropTrailingDashes | src/pages/api/recs.ts:76 | `replace(/-+$/, "")` leaves a prefix that does not end with a dash |
| Recs.Slugify | src/pages/api/recs.ts:76 | the cleaned `id` is a slug: letters, digits and single dashes, with no dash at either end |
| Recs.TrimmedSlug | src/pages/api/recs.ts:76 | letters, digits and single dashes with the dashes at both ends cut off make a slug |
| Recs.DashedSlice | src/pages/api/recs.ts:76 | a slice of letters, digits and single dashes is made of them too |
| Recs.SlugifyAlnums | src/pages/api/recs.ts:76 | the slug keeps exactly the letters and digits of the lower-cased text, in order |
| Recs.DropLeadingAlnums | src/pages/api/recs.ts:76 | cutting leading dashes loses no letter or digit |
| Recs.DropTrailingAlnums | src/pages/api/recs.ts:76 | cutting trailing dashes loses no letter or digit |
| Recs.SlugifyIdempotent | src/pages/api/recs.ts:76 | cleaning an id twice gives the same id as cleaning it once |
| Recs.SlugNoop | src/pages/api/recs.ts:76 | a slug is left as it is by the clean-up |
| Recs.Sanitize | src/pages/api/recs.ts:75-79 | a cleaned item has a slug `id` and a title and summary without white space at either end |
| Recs.SanitizeAll | src/pages/api/recs.ts:75-79 | the `map` step cleans every item, one record per item, in order |
| Recs.KeepComplete | src/pages/api/recs.ts:80 | the `filter` step keeps only records whose three fields are non-empty, and keeps everything when all are complete |
| Recs.ItemsOf | src/pages/api/recs.ts:70-71 | there are items exactly when the text parses to a truthy value whose `items` is an array, and then they are that array |
| Recs.CleanItems | src/pages/api/recs.ts:73-81 | five records come out only from at least five items and are the cleaned first five, all complete; when the first five items are non-null and clean to complete records, five records come out |
| Recs.FirstFiveKept | src/pages/api/recs.ts:74-80 | when the first five items clean to complete records the filter drops none of them |
| Recs.SafeItems | src/pages/api/recs.ts:68-86 | the cleaned records exist only when the text has an `items` array, and then they are the clean-up of that array |
| Recs.RecsJson | src/pages/api/recs.ts:82 | each record becomes an object with `id`, `title` and `summary`, in order |
| Recs.SafeParse | src/pages/api/recs.ts:68-86 | `safeParse` succeeds exactly when five records come out; the result is the parsed object with `items` replaced by them and every other property kept |
| Recs.ListText | src/pages/api/recs.ts:53-57 | a falsy or empty list renders `n/a`, a non-empty array is joined with `, `, and exactly a non-empty string or an object with a truthy `length` throws |
| Recs.CategoryText | src/pages/api/recs.ts:55 | a falsy category renders `unknown` and a non-empty string renders as itself |
| Recs.UserTemplate | src/pages/api/recs.ts:42-62 | the user message can be built exactly when neither the hints nor the refiners throw when rendered |
| Recs.ClientIp | src/pages/api/recs.ts:93-96 | the IP is never empty, and is the trimmed first `x-forwarded-for` entry whenever that is not empty |
| Recs.ModelAnswer | src/pages/api/recs.ts:112-153 | a failed call is 500; a non-2xx answer is 500 with the first 500 characters of its text; unusable output is 502 `Bad model output`; otherwise 200 with the cleaned payload |
| Recs.PromptOf | src/pages/api/recs.ts:102-105 | the prompt is accepted exactly when it is a string that is not blank |
| Recs.AnswerOf | src/pages/api/recs.ts:102-150 | a missing prompt is 400 `Missing prompt`; a template that throws escapes as a 500; otherwise the model's answer; a 200 always carries the cleaned payload of a real reply |
| Recs.Handle | src/pages/api/recs.ts:88-154 | anything but POST is 405 and a missing key is 500, neither touching the limiter; otherwise only the caller's rate record changes, a refused request is 429, and an admitted one gets the answer above; headers are untouched |
| AdminStats.DayOf | src/pages/api/admin_stats.ts:36 | `iso.slice(0, 10)` is the first ten characters, or the whole text when it is shorter |
| AdminStats.NoSearchesOff | src/pages/api/admin_stats.ts:38-43 | a day no usage row falls on has no searches |
| AdminStats.NoVotesOff | src/pages/api/admin_stats.ts:45-50 | a day no feedback row falls on has no votes |
| AdminStats.VotesAtMostRows | src/pages/api/admin_stats.ts:45-50 | a day's votes never exceed the number of feedback rows |
| AdminStats.UsageStep | src/pages/api/admin_stats.ts:38-43 | one more usage row adds its day, and adds a search to that day exactly when its event is `search` |
| AdminStats.FeedbackStep | src/pages/api/admin_stats.ts:45-50 | one more feedback row adds its day and one vote to it |
| AdminStats.CountUsage | src/pages/api/admin_stats.ts:39-42 | the body of the first loop keeps every bucket equal to its day's searches, with a bucket for every day seen |
| AdminStats.CountFeedback | src/pages/api/admin_stats.ts:46-49 | the body of the second loop keeps every bucket equal to its day's searches and votes |
| AdminStats.Aggregate | src/pages/api/admin_stats.ts:34-50 | the buckets hold exactly the days some row falls on, each with that day's searches and votes |
| AdminStats.WindowKeys | src/pages/api/admin_stats.ts:53-56 | the report has fourteen day keys, the `i`-th being the UTC date `i` days before now |
| AdminStats.DaysBackNumber | src/pages/api/admin_stats.ts:55 | going back `i` whole days moves the day number back by `i` |
| AdminStats.WindowDistinct | src/pages/api/admin_stats.ts:53-59 | within the years 0..9999 the fourteen days are different dates |
| AdminStats.Report | src/pages/api/admin_stats.ts:53-59 | the report has one bucket per day key, in order, dated with that key |
| AdminStats.LookupDay | src/pages/api/admin_stats.ts:57 | a day's bucket, or zeros when there is none, holds that day's searches and votes |
| AdminStats.Window | src/pages/api/admin_stats.ts:53-59 | the third loop builds exactly the report of the day keys: each day's searches and votes, zeros when nothing happened |
| AdminStats.SumsAgree | src/pages/api/admin_stats.ts:61-64 | days with the same counts have the same totals |
| AdminStats.UsageOutsideIgnored | src/pages/api/admin_stats.ts:53-64 | a usage row on a day outside the window changes nothing in the report |
| AdminStats.FeedbackOutsideIgnored | src/pages/api/admin_stats.ts:53-64 | a feedback row on a day outside the window changes nothing in the report |
| AdminStats.SearchInsideCounted | src/pages/api/admin_stats.ts:38-64 | a search on one of the window's days adds exactly one to the search total and leaves the vote total alone |
| AdminStats.VoteInsideCounted | src/pages/api/admin_stats.ts:45-64 | a vote on one of the window's days adds exactly one to the vote total and leaves the search total alone |
| AdminStats.SumAfterBump | src/pages/api/admin_stats.ts:61-64 | one more search in one day adds one to the search total and nothing to the votes |
| AdminStats.SumAfterVote | src/pages/api/admin_stats.ts:61-64 | one more vote in one day adds one to the vote total and nothing to the searches |
| AdminStats.Handle | src/pages/api/admin_stats.ts:9-79 | a failed usage query is 500 `usage query failed`, then a failed feedback query is 500 `feedback query failed`; otherwise 200 with the fourteen-day report and its totals; headers untouched |
| AdminRecent.Searches | src/pages/api/admin_recent.ts:28-35 | only search lines come out, never more than there were usage rows |
| AdminRecent.SearchesMember | src/pages/api/admin_recent.ts:28-35 | a line is among the searches exactly when some usage row with the event `search` carries its id, time and prompt |
| AdminRecent.VoteLine | src/pages/api/admin_recent.ts:36-42 | a vote line keeps the row's id, time and prompt, and its vote, or `up` when the row has none |
| AdminRecent.Votes | src/pages/api/admin_recent.ts:36-42 | every feedback row becomes its vote line, in order |
| AdminRecent.Merged | src/pages/api/admin_recent.ts:27-43 | the merge is never longer than the two tables together |
| AdminRecent.BelowIrreflexive | src/pages/api/admin_recent.ts:46 | no timestamp sorts before itself |
| AdminRecent.BelowTransitive | src/pages/api/admin_recent.ts:46 | string order on timestamps is transitive |
| AdminRecent.BelowTotal | src/pages/api/admin_recent.ts:46 | of two different timestamps one sorts before the other |
| AdminRecent.BelowAsymmetric | src/pages/api/admin_recent.ts:46 | two timestamps never sort before each other |
| AdminRecent.NoOlderTransitive | src/pages/api/admin_recent.ts:46 | "at least as new" chains |
| AdminRecent.SortNewestFirst | src/pages/api/admin_recent.ts:46 | the sort leaves the same rows, newest first |
| AdminRecent.InsertLast | src/pages/api/admin_recent.ts:46 | one insertion step extends the newest-first prefix by one row and keeps the rows |
| AdminRecent.Swap | src/pages/api/admin_recent.ts:46 | an exchange of neighbours keeps the rows |
| AdminRecent.Recent | src/pages/api/admin_recent.ts:45-47 | twenty rows (or all, when fewer), newest first, drawn from the merge, and no row left out is newer than one kept |
| AdminRecent.TopRows | src/pages/api/admin_recent.ts:47 | the first `n` rows of a newest-first list are newest first and no row left out is newer than one kept |
| AdminRecent.Handle | src/pages/api/admin_recent.ts:9-58 | a failed usage or feedback query answers 500 with its message and details; otherwise 200 with the host and the twenty newest merged rows (all of them when fewer), newest first, none left out newer than one kept |
| Seed.SeedsWellFormed | src/pages/api/seed.ts:12-157 | the table has exactly the verticals movies, tv, wine and books, each with five recommendations with distinct ids |
| Seed.Vertical | src/pages/api/seed.ts:160 | a single `v` parameter has its ASCII capitals lowered and keeps its length; a missing or repeated one gives the empty name |
| Seed.VerticalIgnoresCase | src/pages/api/seed.ts:160-161 | a vertical is found whatever the case of the letters it is asked for in |
| Seed.RecsJson | src/pages/api/seed.ts:163 | the list is sent as an array with one entry per recommendation |
| Seed.PropertyAsWritten | src/pages/api/seed.ts:161 | `SEEDS[v]` on the plain object is an own list exactly for the four verticals, and then it is that vertical's list |
| Seed.ReachableInherited | src/pages/api/seed.ts:160-161 | after lower-casing, the only inherited members a request can reach are `constructor` and `__proto__` |
| Seed.LowerKept | src/pages/api/seed.ts:160 | a parameter with no upper-case letter is used as it is |
| Seed.ConstructorLowered | src/pages/api/seed.ts:160 | `?v=constructor` asks for `constructor` |
| Seed.ProtoLowered | src/pages/api/seed.ts:160 | `?v=__proto__` asks for `__proto__` |
| Seed.InheritedReplies | src/pages/api/seed.ts:161-163 | the reply for `constructor` has no `items` and the one for `__proto__` has `items` as an empty object |
| Seed.InheritedKeysBreakReply | src/pages/api/seed.ts:159-164 | as written, `?v=constructor` gets a reply with no `items` and `?v=__proto__` one whose `items` is an object, not a list |
| Seed.ConstructorInherited | src/pages/api/seed.ts:161 | `SEEDS["constructor"]` is an inherited function |
| Seed.ProtoInherited | src/pages/api/seed.ts:161 | `SEEDS["__proto__"]` is the prototype object |
| Seed.Items | src/pages/api/seed.ts:161 | a vertical of the table gives its five recommendations with distinct ids; any other name gives none |
| Seed.Reply | src/pages/api/seed.ts:163 | the reply's `items` is always the list for the vertical |
| Seed.LookupsAgree | src/pages/api/seed.ts:161 | the own-key lookup and the lookup as written agree on every name except the inherited ones |
| Seed.ReplyAsWritten | src/pages/api/seed.ts:161-163 | as written, a vertical of the table gets its list as `items`; an inherited function name gets no `items`, `__proto__` gets `items` as an empty object, and any other name an empty list |
| Seed.OnlyTwoInherited | src/pages/api/seed.ts:160-163 | for every requested vertical except `constructor` and `__proto__`, the reply as written is the own-key reply |
| Seed.Handle | src/pages/api/seed.ts:159-164 | the route always answers 200 with the reply as written, which for every vertical except `constructor` and `__proto__` is the vertical's list, empty for an unknown or missing vertical |
| Feedback.VoteOf | src/pages/api/feedback.ts:20-23 | a vote is accepted exactly when the body's `vote` is the string `up` or `down` |
| Feedback.OrElse | src/pages/api/feedback.ts:33-34 | `a ?? b` replaces only `undefined` and `null` by the fallback |
| Feedback.Record | src/pages/api/feedback.ts:27-36 | the logged record carries the vote, the time and the item and prompt fields as sent; `userId` falls back to null and `tier` to `guest` only when missing or null |
| Feedback.Handle | src/pages/api/feedback.ts:14-39 | anything but POST is 405 with `Allow: POST`; an invalid vote is 400 and nothing is logged; a valid one is 200 `{ ok: true }` and logs exactly the record above |
| Feedback.TextBodyRefused | src/pages/api/feedback.ts:20-23 | a vote sent as text rather than JSON is refused, whatever the text |
| Feedback.AcceptedVotes | src/pages/api/feedback.ts:21 | in a JSON body a vote is accepted exactly when it is `up` or `down` |
| LegacySearch.EffectivePrompt | src/hooks/useLegacySearch.ts:47-48 | the prompt used is the trimmed given text (or the typed prompt when none is given), and there is none exactly when that text is all white space |
| LegacySearch.NotBlank | src/hooks/useLegacySearch.ts:47-48 | a text holding one character other than white space always starts a search |
| LegacySearch.DashedNotBlank | src/hooks/useLegacySearch.ts:47-48 | a text containing an em-dash separator always starts a search |
| LegacySearch.SeparatorsDashed | src/hooks/useLegacySearch.ts:93 | both refine separators carry an em dash after their leading space |
| LegacySearch.RefinesSearch | src/hooks/useLegacySearch.ts:90-104 | the text of either refine action always starts a search |
| LegacySearch.TitleRefineSearches | src/hooks/useLegacySearch.ts:90-96 | the text of a title refine always starts a search |
| LegacySearch.TagRefineSearches | src/hooks/useLegacySearch.ts:98-104 | the text of a tag refine always starts a search |
| LegacySearch.RefineOrder | src/hooks/useLegacySearch.ts:90-104 | with both a title and a tag chosen, the two refine actions build the same query |
| LegacySearch.TitleRefinedExact | src/hooks/useLegacySearch.ts:92-93 | with a base query and a title ending in a visible character, the query sent is the base, " — more like " and the title |
| LegacySearch.Paged | src/hooks/useLegacySearch.ts:136-139 | a page holds at most five records |
| LegacySearch.TotalPages | src/hooks/useLegacySearch.ts:141 | there is at least one page, the pages hold every record, and no page is wholly empty beyond the records |
| LegacySearch.PageOfIndex | src/hooks/useLegacySearch.ts:136-141 | record `i` is on page `i / 5 + 1` at position `i % 5`, and that page is among those counted |
| LegacySearch.PageSizes | src/hooks/useLegacySearch.ts:136-141 | pages after the last are empty and pages before the last are full |
| LegacySearch.FirstField | src/hooks/useLegacySearch.ts:108-117 | `first?.key` is absent for an empty list and the first record's property otherwise |
| LegacySearch.VoteBody | src/hooks/useLegacySearch.ts:112-119 | the vote body is a JSON object |
| LegacySearch.VoteBodyHead | src/hooks/useLegacySearch.ts:112-119 | the body holds the vote, the base query (or the empty text) and a null user |
| LegacySearch.VoteBodyItems | src/hooks/useLegacySearch.ts:115-117 | the body's item id, title and summary are those of the first record, absent when it has none |
| LegacySearch.VoteBodyField | src/hooks/useLegacySearch.ts:115-117 | the item keys come from the first record only |
| LegacySearch.VoteHead | src/hooks/useLegacySearch.ts:113-114 | the vote and prompt properties, and no other key of the body |
| LegacySearch.ItemFields | src/hooks/useLegacySearch.ts:115-117 | the three item properties, absent when the first record is missing or lacks them, and no other key |
| LegacySearch.Initial | src/hooks/useLegacySearch.ts:12-21 | the first render shows page 1, no records, no search running and keeps the invariant |
| LegacySearch.Started | src/hooks/useLegacySearch.ts:50-62 | starting a search clears the prompt, list, error and vote, goes to page 1, puts the query in the address and the request log, and only a new search resets the base and refinements |
| LegacySearch.GetRecsStep | src/hooks/useLegacySearch.ts:46-62 | a blank prompt changes nothing; otherwise the search starts with the trimmed prompt |
| LegacySearch.Finished | src/hooks/useLegacySearch.ts:79-87 | loading stops; a failure shows the load error and keeps the list, an answer shows its items (or none) |
| LegacySearch.TitleQuery | src/hooks/useLegacySearch.ts:90-95 | the query a title refine sends is the trimmed refine text and is never blank |
| LegacySearch.TagQuery | src/hooks/useLegacySearch.ts:98-103 | the query a tag refine sends is the trimmed refine text and is never blank |
| LegacySearch.TitleStep | src/hooks/useLegacySearch.ts:90-96 | the title is remembered, the tag and base are kept, and the refined query is sent |
| LegacySearch.TagStep | src/hooks/useLegacySearch.ts:98-104 | the tag is remembered, the title and base are kept, and the refined query is sent |
| LegacySearch.Voted | src/hooks/useLegacySearch.ts:121-122 | the vote is shown only when it was saved, and nothing else changes |
| LegacySearch.EnterStep | src/hooks/useLegacySearch.ts:143-145 | Enter searches for the typed prompt unless a search is running; any other key changes nothing |
| LegacySearch.MountStep | src/hooks/useLegacySearch.ts:26-36 | a `q` in the address starts a new search for it |
| LegacySearch.StartedValid | src/hooks/useLegacySearch.ts:46-62 | starting a search with a trimmed, non-empty query keeps the invariant |
| LegacySearch.GetRecsValid | src/hooks/useLegacySearch.ts:46-62 | `getRecs` keeps the invariant |
| LegacySearch.TitleStepValid | src/hooks/useLegacySearch.ts:90-96 | a title refine keeps the invariant |
| LegacySearch.TagStepValid | src/hooks/useLegacySearch.ts:98-104 | a tag refine keeps the invariant |
| LegacySearch.FinishedValid | src/hooks/useLegacySearch.ts:79-87 | the end of a request keeps the invariant |
| LegacySearch.VotedValid | src/hooks/useLegacySearch.ts:121-122 | a vote keeps the invariant |
| LegacySearch.EnterValid | src/hooks/useLegacySearch.ts:143-145 | Enter keeps the invariant |
| LegacySearch.MountValid | src/hooks/useLegacySearch.ts:26-36 | the mount effect keeps the invariant |
| LegacySearch.Search.constructor | src/hooks/useLegacySearch.ts:12-21 | the hook starts in its initial state |
| LegacySearch.Search.PagedNow | src/hooks/useLegacySearch.ts:136-139 | the records shown are those of the current page |
| LegacySearch.Search.SetPrompt | src/hooks/useLegacySearch.ts:12 | only the prompt changes |
| LegacySearch.Search.SetPage | src/hooks/useLegacySearch.ts:16 | only the page changes |
| LegacySearch.Search.GetRecs | src/hooks/useLegacySearch.ts:46-88 | returns the query sent, if any, and moves to the started state |
| LegacySearch.Search.FinishSearch | src/hooks/useLegacySearch.ts:79-87 | moves to the finished state |
| LegacySearch.Search.RefineWithTitle | src/hooks/useLegacySearch.ts:90-96 | sends the title refine's query and moves to its state |
| LegacySearch.Search.RefineWithTag | src/hooks/useLegacySearch.ts:98-104 | sends the tag refine's query and moves to its state |
| LegacySearch.Search.HandleVote | src/hooks/useLegacySearch.ts:106-134 | posts the vote body and shows the vote only when it was saved |
| LegacySearch.Search.OnEnter | src/hooks/useLegacySearch.ts:143-145 | Enter starts a search unless one is running |
| LegacySearch.Search.Mount | src/hooks/useLegacySearch.ts:26-36 | a `q` in the address starts a search |
| ResultsV4.EnsureSessionId | src/components/ResultsV4.tsx:33-41 | without a window the id is "server" and nothing is stored; a stored non-empty id is kept; otherwise a new id of the clock and a suffix is stored; with a window the stored id is the one returned |
| ResultsV4.FeedbackOf | src/components/ResultsV4.tsx:47 | an entry read back carries the stored id and signal |
| ResultsV4.FeedbackJsonFields | src/components/ResultsV4.tsx:55 | a stored entry holds its id, title, year (absent when missing) and signal |
| ResultsV4.FeedbackRoundTrip | src/components/ResultsV4.tsx:43-56 | every entry reads back as itself |
| ResultsV4.ListJson | src/components/ResultsV4.tsx:55 | the stored list holds each entry's text, in order |
| ResultsV4.EntriesOf | src/components/ResultsV4.tsx:47 | a list read back has as many entries as the stored array |
| ResultsV4.EntriesCons | src/components/ResultsV4.tsx:47 | a stored list is read back entry by entry |
| ResultsV4.EntriesRoundTrip | src/components/ResultsV4.tsx:43-56 | every stored list reads back as the list written |
| ResultsV4.ListJsonCons | src/components/ResultsV4.tsx:55 | the stored list of a non-empty list is its first entry's text followed by the rest |
| ResultsV4.LoadFeedback | src/components/ResultsV4.tsx:43-51 | without a window, with nothing stored, or with text that does not parse, the list is empty |
| ResultsV4.SaveFeedback | src/components/ResultsV4.tsx:53-56 | with a window the list is stored under its key and loads back as itself; without one nothing changes |
| ResultsV4.ClearFeedback | src/components/ResultsV4.tsx:58-61 | the key is removed and the list loads back empty |
| ResultsV4.WithSignal | src/components/ResultsV4.tsx:222-223 | only entries with the signal are kept, never more than there were |
| ResultsV4.WithSignalAppend | src/components/ResultsV4.tsx:222-223 | filtering distributes over concatenation |
| ResultsV4.WithSignalMember | src/components/ResultsV4.tsx:155 | an entry is kept exactly when it is in the list with that signal |
| ResultsV4.Labels | src/components/ResultsV4.tsx:226 | each entry's label, in order |
| ResultsV4.Dedupe | src/components/ResultsV4.tsx:153-157 | a `Set` of the labels holds each value once and exactly the values of the list |
| ResultsV4.DislikedTitles | src/components/ResultsV4.tsx:151-159 | the disliked titles hold no duplicate |
| ResultsV4.DislikedMember | src/components/ResultsV4.tsx:151-159 | a label is disliked exactly when some "down" thumb carries it |
| ResultsV4.KeepLiked | src/components/ResultsV4.tsx:165 | the kept items are in order, none is disliked, and every item not disliked is kept |
| ResultsV4.FilteredItems | src/components/ResultsV4.tsx:163-166 | the items shown are in order, none is disliked, every item not disliked is shown, and all are shown when nothing is disliked |
| ResultsV4.SubseqRefl | src/components/ResultsV4.tsx:164 | a list is a sub-list of itself |
| ResultsV4.Keys | src/components/ResultsV4.tsx:193 | each chip's key, in order |
| ResultsV4.DefsWith | src/components/ResultsV4.tsx:191-192 | the chips kept are in order and each has one of the keys |
| ResultsV4.DedupeByKey | src/components/ResultsV4.tsx:193 | one chip per key, each drawn from the list |
| ResultsV4.DedupeDistinct | src/components/ResultsV4.tsx:193 | chips with distinct keys are all kept |
| ResultsV4.DedupePrefix | src/components/ResultsV4.tsx:193 | later chips never displace earlier ones |
| ResultsV4.DefsKeysDistinct | src/components/ResultsV4.tsx:171-186 | the chip definitions have distinct keys |
| ResultsV4.SubseqNoDupKeys | src/components/ResultsV4.tsx:191-192 | a sub-list of chips with distinct keys has distinct keys |
| ResultsV4.SubseqMember | src/components/ResultsV4.tsx:191-192 | a sub-list holds only elements of the list |
| ResultsV4.SuggestedChips | src/components/ResultsV4.tsx:188-195 | no chips without items, and never more than six |
| ResultsV4.ChipsDistinct | src/components/ResultsV4.tsx:188-195 | each suggested key appears once and every chip is a defined one |
| ResultsV4.HitsFirst | src/components/ResultsV4.tsx:191-194 | the chips whose test matches come first, in definition order, as many as fit in six |
| ResultsV4.SuggestedChipsFill | src/components/ResultsV4.tsx:189-195 | with items present, the chips are the first six of the matching chips followed by the fallback chips that did not match |
| ResultsV4.FallbackNeverSizes | src/components/ResultsV4.tsx:192 | the fallback keys hold neither size chip, so leaving the size chips out of the hits changes nothing for them |
| ResultsV4.FilterThenMerge | src/components/ResultsV4.tsx:191-193 | merging by key the chips of one key set and then those of another keeps the first list whole and drops from the second exactly the keys of the first |
| ResultsV4.DedupeAfter | src/components/ResultsV4.tsx:193 | after a list of distinct keys, a later chip survives the merge exactly when its key is not already present |
| ResultsV4.DedupeAfterStep | src/components/ResultsV4.tsx:193 | the merge above extends by one chip at the end |
| ResultsV4.FilteredKeys | src/components/ResultsV4.tsx:191-192 | a defined chip's key is among the filtered chips' keys exactly when its key is wanted |
| ResultsV4.DefsWithMember | src/components/ResultsV4.tsx:191-192 | a chip whose key is wanted is kept by the filter |
| ResultsV4.DefsWithSnoc | src/components/ResultsV4.tsx:191-192 | filtering a list with one more chip at the end appends that chip exactly when its key is wanted |
| ResultsV4.DedupeSnoc | src/components/ResultsV4.tsx:193 | merging a list with one more chip at the end adds it exactly when its key is new |
| ResultsV4.KeyNotAmong | src/components/ResultsV4.tsx:193 | a chip whose key none of the earlier chips share is found among the merged keys only through the leading list |
| ResultsV4.ToggleChip | src/components/ResultsV4.tsx:197-199 | toggling selects the key exactly when it was not selected and leaves every other key as it was |
| ResultsV4.Without | src/components/ResultsV4.tsx:198 | removing a key drops every copy and keeps the rest |
| ResultsV4.ToggleTwice | src/components/ResultsV4.tsx:197-199 | toggling twice restores which keys are selected, and the list itself when the key was not selected |
| ResultsV4.WithoutAppended | src/components/ResultsV4.tsx:198 | removing a key just appended restores the list |
| ResultsV4.BasePrompt | src/components/ResultsV4.tsx:215-218 | the trimmed prompt, or "Find 5 popular" and the vertical when it is blank |
| ResultsV4.ChipLabel | src/components/ResultsV4.tsx:238 | a defined chip's label, or the key itself |
| ResultsV4.FindLabel | src/components/ResultsV4.tsx:238 | the caption of a chip with the key, or the key itself |
| ResultsV4.ChipLabels | src/components/ResultsV4.tsx:237-239 | each selected key's label, in order |
| ResultsV4.ThumbsRecentOnly | src/components/ResultsV4.tsx:221-233 | only the last six "up" and ten "down" thumbs shape the refine clauses |
| ResultsV4.LastAppend | src/components/ResultsV4.tsx:222-223 | the last `n` of a list ending in at least `n` elements are those of that ending |
| ResultsV4.AvoidFirstTen | src/components/ResultsV4.tsx:246-249 | the closing clause names only the first ten disliked titles |
| ResultsV4.ComposePrompt | src/components/ResultsV4.tsx:214-249 | the prompt is the base, the like and avoid clauses of refine mode, the chip clauses and the closing avoid clause, in that order |
| ResultsV4.AddThumbs | src/components/ResultsV4.tsx:220-233 | refine mode adds the liked titles, then the disliked ones, only when there are thumbs |
| ResultsV4.AddChips | src/components/ResultsV4.tsx:235-243 | selected chips add the bias clause and the runtime hints |
| ResultsV4.Initial | src/components/ResultsV4.tsx:119-138 | the first render takes the vertical (or "movies") and the query (or ""), with no items, thumbs, chips or nudge |
| ResultsV4.AutoRuns | src/components/ResultsV4.tsx:144-149 | the mount search runs only when `autoRunQuery` is truthy; then a missing vertical always lets it run, and an empty vertical lets it run exactly when there is a query |
| ResultsV4.Recorded | src/components/ResultsV4.tsx:276-287 | a thumb appends its entry, shows the nudge only the first time, and leaves items, chips and prompt alone |
| ResultsV4.NudgeOnce | src/components/ResultsV4.tsx:282-286 | once the nudge has been shown and hidden, more thumbs never bring it back |
| ResultsV4.ErrorText | src/components/ResultsV4.tsx:258-267 | a failed request always shows a non-empty message |
| ResultsV4.Fetched | src/components/ResultsV4.tsx:258-270 | loading stops; an answer replaces the items, a failure shows its message and keeps them |
| ResultsV4.FreshPrompt | src/components/ResultsV4.tsx:214-249 | before any thumb or chip the prompt sent is the base prompt alone |
| ResultsV4.View.constructor | src/components/ResultsV4.tsx:119-138 | the view starts in its initial state |
| ResultsV4.View.Shown | src/components/ResultsV4.tsx:163-166 | the items shown are in order and none is disliked |
| ResultsV4.View.LoadThumbs | src/components/ResultsV4.tsx:140-142 | only the thumbs change, to those stored |
| ResultsV4.View.SetPrompt | src/components/ResultsV4.tsx:306 | only the prompt changes |
| ResultsV4.View.SetVertical | src/components/ResultsV4.tsx:312 | only the vertical changes |
| ResultsV4.View.Toggle | src/components/ResultsV4.tsx:197-199 | only the chip selection changes, by a toggle |
| ResultsV4.View.ClearRefinements | src/components/ResultsV4.tsx:201-205 | no chips, no thumbs, and nothing left stored |
| ResultsV4.View.RecordFeedback | src/components/ResultsV4.tsx:276-287 | the thumb is recorded and the stored list loads back as the new list |
| ResultsV4.View.HideNudge | src/components/ResultsV4.tsx:285 | only the nudge is hidden |
| ResultsV4.View.FetchRecs | src/components/ResultsV4.tsx:210-256 | loading starts, the error clears, and the body posted holds the composed prompt and the vertical |
| ResultsV4.View.FinishFetch | src/components/ResultsV4.tsx:258-270 | moves to the fetched state |
| ResultsPage.SpaceEnd | src/components/ResultsPage.js:45 | the run of white space starting at a position ends at the text's end or at a character that is not white space |
| ResultsPage.SepEnd | src/components/ResultsPage.js:45 | a separator is at least three characters long and ends within the line |
| ResultsPage.PiecesFrom | src/components/ResultsPage.js:45 | splitting always gives at least one piece |
| ResultsPage.NoSepOnePiece | src/components/ResultsPage.js:45 | a line without a separator is one piece, the whole line |
| ResultsPage.FirstSepSplits | src/components/ResultsPage.js:45 | the first piece ends where the first separator starts, and the rest is the split of what follows it |
| ResultsPage.ShiftedPieces | src/components/ResultsPage.js:45 | the split depends only on the text it reads, not on where that text sits in the line |
| ResultsPage.SepShift | src/components/ResultsPage.js:45 | a separator seen from a suffix of the line is the same separator, ending at the same place |
| ResultsPage.SpaceShift | src/components/ResultsPage.js:45 | runs of white space are the same seen from a suffix |
| ResultsPage.ParseLine | src/components/ResultsPage.js:44-48 | the title is the trimmed first piece |
| ResultsPage.NoSepTitleOnly | src/components/ResultsPage.js:44-48 | without a separator the whole trimmed line is the title and the description is empty |
| ResultsPage.SepTitle | src/components/ResultsPage.js:44-48 | with a separator, the title is the trimmed text before the first one and the description is the rest, joined with " - " and trimmed |
| ResultsPage.EmDashNotSplit | src/components/ResultsPage.js:45 | as written, "title — description" is not split: the whole line becomes the title |
| ResultsPage.EmDashSplit | src/components/ResultsPage.js:45 | with the em dash accepted, "title — description" splits into its title and description |
| ResultsPage.EmDashSeparator | src/components/ResultsPage.js:45 | in "title — description" the first separator is the em dash with its spaces, right after the title |
| ResultsPage.UnspacedOnePiece | src/components/ResultsPage.js:46-47 | a non-empty text without white space is its own trim and its own single piece |
| ResultsPage.DashesAgreeWithoutEmDash | src/components/ResultsPage.js:45 | a line without an em dash parses the same way with either set of dashes |
| ResultsPage.SameSplit | src/components/ResultsPage.js:45 | without an em dash both patterns split a line at the same places |
| ResultsPage.NonBlank | src/components/ResultsPage.js:43 | the filter never adds lines |
| ResultsPage.NonBlankMember | src/components/ResultsPage.js:43 | a line is kept exactly when it is in the answer and not blank |
| ResultsPage.ParseContent | src/components/ResultsPage.js:43-49 | one item per non-blank line, each that line parsed |
| ResultsPage.UserPrompt | src/components/ResultsPage.js:18-20 | the message starts with the question and adds the refinement exactly when one is given |
| ResultsPage.FetchRecommendations | src/components/ResultsPage.js:11-54 | without a key nothing is sent and there are no items; otherwise the user message is sent; a failed request or an empty answer gives no items, and an answer gives its parsed lines |
| ResultsPage.Consumed | src/components/ResultsPage.js:107-113 | a free search is spent first, else a paid token of a signed-in user, else nothing |
| ResultsPage.Spendable | src/components/ResultsPage.js:100-104 | there is a token to spend exactly when `hasTokens()` holds |
| ResultsPage.HasTokens | src/components/ResultsPage.js:100-104 | a free search left always allows a search; for a visitor who is not signed in, nothing else does |
| ResultsPage.ConsumeSpendsOne | src/components/ResultsPage.js:100-113 | spending takes exactly one token when there is one |
| ResultsPage.NextModifier | src/components/ResultsPage.js:89-95 | the rotation stays within the ten modifiers and steps to the next one |
| ResultsPage.Page.constructor | src/components/ResultsPage.js:63-70 | the page starts with its query, no results, no error and no refinement |
| ResultsPage.Page.RefineSubmit | src/components/ResultsPage.js:146-151 | a blank refinement is ignored; otherwise it is trimmed into place and the input cleared; nothing else changes |
| ResultsPage.Page.GetRecs | src/components/ResultsPage.js:118-144 | with no query nothing happens; without tokens the page shows why and clears the results; otherwise the answer, parsed with the given dash set, is shown and one token spent, unless the run was cancelled |
| ResultsPage.ConsumeToken | src/components/ResultsPage.js:107-113 | the counters after one search, persisted |
| ResultsPage.SearchAsWritten | src/components/ResultsPage.js:118-144 | as wired, the effect runs until no token is left, and the last run replaces the answer with the out-of-tokens message |
| ResultsPage.Search | src/components/ResultsPage.js:118-144 | the intended effect shows the answer, with em-dash lines split as well, and spends exactly one token |
| AppTokens.Stored | src/App.js:24-34 | a counter with nothing stored starts at its default (3 free, 0 paid) |
| AppTokens.StoredRoundTrip | src/App.js:24-42 | what the effects write is what the next load reads, NaN included |
| AppTokens.AfterSignIn | src/App.js:64 | signing in adds three free searches to a count of at most three and leaves any other count, NaN included, unchanged |
| AppTokens.SignInSettles | src/App.js:64 | signing in twice grants the bonus twice exactly when the count started at or below zero |
| AppTokens.Wallet.ReloadKeeps | src/App.js:24-42 | once persisted, a reload starts from the counters as they are |
| AppTokens.Wallet.constructor | src/App.js:20-42 | no user, the counters read from storage with their defaults, and both written back |
| AppTokens.Wallet.SetFreeTokens | src/App.js:37-39 | the free count changes and is written back; nothing else changes |
| AppTokens.Wallet.SetTokenBalance | src/App.js:40-42 | the paid count changes and is written back; nothing else changes |
| AppTokens.Wallet.RestoreSession | src/App.js:50-57 | the user is whoever the stored session names; the counters stay |
| AppTokens.Wallet.SignedIn | src/App.js:59-64 | a user is signed in and the free count gets the sign-in bonus |
| AppTokens.Wallet.SignedOut | src/App.js:65-69 | no user and three free searches again; paid tokens stay |
| HomeCounter.MonthKey | src/app/page.tsx:13-15 | every month's key starts with the counter's prefix |
| HomeCounter.MonthKeyInjective | src/app/page.tsx:13-15 | two months of the common era never share a key |
| HomeCounter.TokenText | src/app/page.tsx:45 | the counter's text starts with the count as `String` writes it |
| HomeCounter.Counter.constructor | src/app/page.tsx:8-9 | the count starts at 0 with no key |
| HomeCounter.Counter.Mount | src/app/page.tsx:11-19 | the key is this month's, the count is `Number` of the text stored under it (0 when nothing is stored; `0x`, `0o` and `0b` text read in their base), and storage is untouched |
| HomeCounter.Counter.Increment | src/app/page.tsx:21-26 | nothing happens before the key is known; afterwards the count goes up by one and is stored under the key |
| HomeCounter.Counter.ReadBack | src/app/page.tsx:17-25 | mounting again within the month reads back the count just written |
| HomeCounter.ErrorText | src/app/page.tsx:58-66 | a failed answer shows its `error` field when truthy, else "Server error:" and the status; a throw shows its message, or the default when it has none |
| HomeCounter.RunBodyFields | src/app/page.tsx:55 | the posted body holds the prompt and category, and the refinement exactly when there is one |
| HomeCounter.QueryText | src/app/page.tsx:75 | the query is the `q` parameter's text when it is given, and the empty text when it is not |
| HomeCounter.ChosenCategory | src/app/page.tsx:76-77 | a non-empty `cat` parameter becomes the category, and nothing else changes it |
| HomeCounter.Home.constructor | src/app/page.tsx:36-42 | the page starts with an empty prompt, the "universal" category, no results and no error |
| HomeCounter.Home.Fetch | src/app/page.tsx:47-70 | `run` as one render's closure sees it: posts that render's category; an answer shows its results and counts one search only when the closure sees the month key; a failure shows its message and counts nothing |
| HomeCounter.Home.Run | src/app/page.tsx:47-70 | posts the prompt, current category and refinement; an answer shows its results and counts one search, a failure shows its message and counts nothing |
| HomeCounter.Home.Launch | src/app/page.tsx:78-81 | the auto-run puts the query in the box, marks the page booted and posts the query with the category its `run` sees, counting only when that `run` can |
| HomeCounter.Home.Boot | src/app/page.tsx:72-83 | as written, once per page a non-empty `cat` picks the category and a query that is not blank is put in the box and run, but the request names the category from before `cat`, and on mount the search is not counted |
| HomeCounter.Home.BootIntended | src/app/page.tsx:72-83 | as meant, the auto-run posts the query in the chosen category and counts an answered search like any other |
| HomeCounter.StaleCategoryPosted | src/app/page.tsx:47-83 | on a fresh page, `/?q=dune&cat=books` picks "books" but posts "universal" |
| ResultsRoute.NormalizeVertical | src/pages/results.tsx:11-21 | the vertical is always an allowed one: the parameter itself when it is a single allowed value, else "movies" |
| ResultsRoute.NormalizeIsCaseSensitive | src/pages/results.tsx:11-16 | a single parameter is kept exactly when it is one of the allowed verticals; any text with a capital A to Z ("TV", "Movies") falls back to "movies" |
| ResultsRoute.Query | src/pages/results.tsx:20 | the query exists exactly when the parameter is given once, and is its text |
| ResultsRoute.Label | src/pages/results.tsx:33 | the label is the vertical with its first letter upper-cased |
| ResultsRoute.LabelsOfAllowed | src/pages/results.tsx:33 | an allowed vertical's label starts with a capital and lower-cases back to the vertical |
| ResultsRoute.Banner | src/pages/results.tsx:31-35 | the "Results for" line is shown exactly for a non-empty query |
| ResultsRoute.FirstRequest | src/pages/results.tsx:37-43 | the view posts a first request exactly when its auto-run test passes |
| ResultsRoute.QueryNotForwarded | src/pages/results.tsx:37-43 | as written, a page opened for a non-empty query asks for the vertical's popular items instead, and a page without one asks nothing |
| ResultsRoute.CorrectedProps | src/pages/results.tsx:37-43 | the corrected props hand the query to the view as its query as well as its auto-run switch |
| ResultsRoute.QueryForwarded | src/pages/results.tsx:37-43 | with the query handed over, the page asks for what was searched for, trimmed, and asks nothing without a query |
| ResultsRoute.Page | src/pages/results.tsx:18-47 | as written, the banner is shown exactly when a first request is made, which is exactly for a single non-empty `q`, and that request asks for "Find 5 popular" items of the normalised vertical |
| ResultsRoute.CorrectedPage | src/pages/results.tsx:18-47 | with the query handed over, the banner is shown exactly when a first request is made, and for a non-blank query that request asks for the trimmed query in the normalised vertical |
| Dates.SplitEra | src/lib/quota.ts:75-77 | a day of a 400-year era splits into a year of the era and a day of that year that add back up to it |
| Dates.CivilFromDays | src/lib/quota.ts:75-77 | the UTC calendar date of a day number has a month in 1..12 and a day in 1..31 |
| Dates.DaysRoundTrip | src/lib/quota.ts:75-77 | every day number is recovered from its calendar date, so distinct days have distinct dates |
| Dates.TimeOfDay | src/lib/quota.ts:47 | hours, minutes, seconds and milliseconds of an instant are within their ranges |
| Dates.IsoString | src/pages/api/admin_stats.ts:13 | `toISOString()` begins with the ten characters of the instant's UTC date |
| Dates.DayKey | src/lib/quota.ts:73-78 | `toISOString().slice(0, 10)` is the first ten characters of the UTC date text |
| Dates.IsoDateReadBack | src/lib/quota.ts:77 | for the years 0..9999 the day key is `YYYY-MM-DD`, ten characters whose digit groups read back as the year, month and day |
| Dates.SameKeyIffSameDay | src/lib/quota.ts:73-78 | two instants in the years 0..9999 share a day key exactly when they fall on the same UTC day |
| Dates.DistinctDates | src/pages/api/admin_stats.ts:53-58 | two different days in the years 0..9999 never share a day key |
| Dates.IsoDateInjective | src/lib/quota.ts:77 | two dates in the years 0..9999 with the same `YYYY-MM-DD` text are the same date |
| Base.DigitChar | src/lib/softWall.ts:33-34 | the digit character of a value below 10 is a digit that reads back as that value |
| Base.ToLower | src/lib/softWall.ts:21 | `toLowerCase()` on ASCII: keeps the length and lowers each capital A to Z in place, leaving every other character as it is |
| Base.LowerNoop | src/pages/api/recs.ts:76 | text without upper-case letters is its own lower case |
| Base.TrimStart | src/pages/api/recs.ts:94 | the result is a suffix of the input that does not start with white space, and only white space was dropped |
| Base.TrimEnd | src/pages/api/recs.ts:94 | the result is a prefix of the input that does not end with white space, and only white space was dropped |
| Base.Trim | src/pages/api/recs.ts:77-78 | `trim()` is no longer than the input and neither starts nor ends with white space |
| Base.TrimNoop | src/pages/api/recs.ts:77-78 | text that neither starts nor ends with white space is its own trim |
| Base.TrimEmptyIffBlank | src/pages/api/recs.ts:103 | `!s.trim()` holds exactly when every character of `s` is white space |
| Base.NatToString | src/lib/softWall.ts:50 | `String(n)` of a natural number is a non-empty run of digits with no leading zero |
| Base.IntToString | src/lib/softWall.ts:50 | `String(i)` starts with a digit or a minus sign |
| Base.DigitsValueOfNat | src/lib/softWall.ts:45-50 | the digits `String` writes for `n` have the value `n` |
| Base.DigitPrefixLen | src/lib/softWall.ts:45 | the digit run `parseInt` reads is all digits and stops at the first non-digit |
| Base.DigitPrefixOfDigits | src/lib/softWall.ts:45 | a run of digits followed by a non-digit is read up to its end |
| Base.NumberToString | src/lib/softWall.ts:50 | `String(x)` is never empty |
| Base.DigitNotSpace | src/lib/softWall.ts:45 | a digit is not white space |
| Base.TrimStartNoop | src/lib/softWall.ts:45 | text not starting with white space is its own `trimStart` |
| Base.DigitPrefixAll | src/lib/softWall.ts:45 | a run of digits is read by `parseInt` in full |
| Base.ParseIntOfDigits | src/lib/softWall.ts:45 | `parseInt` of a run of digits is its value |
| Base.ParseIntOfNegDigits | src/lib/softWall.ts:45 | `parseInt` of a minus sign and a run of digits is minus its value |
| Base.ParseIntOfMinus | src/lib/softWall.ts:45 | the same, for any text that starts with a minus sign followed by digits only |
| Base.ParseIntOfNat | src/lib/softWall.ts:45-50 | `parseInt` reads back the number `String` wrote for a natural number |
| Base.ParseIntOfNegative | src/lib/softWall.ts:45-50 | `parseInt` reads back the number `String` wrote for a negative integer |
| Base.ParseIntOfNaN | src/App.js:26 | `parseInt("NaN")` is NaN |
| Base.ParseIntOfNumberToString | src/lib/softWall.ts:45-50 | `parseInt(String(x))` is `x` for every integer and for NaN |
| Base.NumberOfDigits | src/app/page.tsx:17 | `Number` of a run of digits is its value |
| Base.NumberOfNegDigits | src/app/page.tsx:17 | `Number` of a minus sign and a run of digits is minus its value |
| Base.NumberOfNaN | src/app/page.tsx:17 | `Number("NaN")` is NaN |
| Base.NumberOfNumberToString | src/app/page.tsx:17-19 | `Number(String(x))` is `x` for every integer and for NaN |
| Base.NumberOfNat | src/app/page.tsx:17-19 | `Number` reads back the text `String` wrote for a natural number |
| Base.NumberOfNegative | src/app/page.tsx:17-19 | `Number` reads back the text `String` wrote for a negative integer |
| Base.RadixTenIsDecimal | src/app/page.tsx:17 | decimal digits read as base-10 digits have their decimal value, so the prefixed and the decimal readings agree on base 10 |
| Base.NumberOfPrefixed | src/app/page.tsx:17 | `Number` of `0x`, `0o` or `0b` (either case) followed by digits of that base is their value in base 16, 8 or 2 |
| Base.NumberOfHex | src/app/page.tsx:17 | `Number("0x10")` is 16 |
| Base.NumberOfSignedHex | src/app/page.tsx:17 | a sign before the prefix gives NaN: `Number("-0x10")` |
| Base.PadZero | src/lib/softWall.ts:33-34 | `padStart(w, "0")` gives at least `w` digits, exactly `w` when the number fits |
| Base.PadZeroValue | src/lib/softWall.ts:33-34 | padding with zeros does not change the value read back |
| Base.ZerosValue | src/lib/softWall.ts:33-34 | leading zeros add nothing to a digit run's value |
| Base.AllZerosValue | src/lib/softWall.ts:33-34 | a run of zeros has value 0 |
| Base.NatToStringLength | src/lib/softWall.ts:33-34 | a number below `10^k` has at most `k` digits |
| Base.Split | src/lib/quota.ts:37-38 | `split(c)` gives at least one piece and no piece contains `c` |
| Base.JoinSplit | src/lib/quota.ts:38-39 | joining the pieces of `split(c)` with `c` gives the text back |
| Base.SplitAtFirst | src/lib/quota.ts:38-39 | the first piece is everything before the first `c`, and the other pieces re-joined are everything after it |
| Base.SplitWithout | src/lib/quota.ts:38 | text without `c` splits into itself alone |
| Base.SliceIndex | src/hooks/useLegacySearch.ts:138 | a `slice` index within the bounds is kept, a negative one counts from the end, and the result is always within 0..length |
| Base.JsSlice | src/hooks/useLegacySearch.ts:138 | `slice(start, end)` with bounds inside the input is exactly those elements, and is empty when the end does not pass the start |
| Base.Take | src/pages/api/recs.ts:74 | `slice(0, n)` is the first `n` elements, or all of them when there are fewer |
| Base.Last | src/components/ResultsV4.tsx:222-223 | `slice(-n)` is the last `n` elements, or all of them when there are fewer |

## Left out

- Network, database and language-model calls are not modelled. Their answers are inputs of the operations that await them: `Query` results in the admin routes, `ModelReply` and `Reply` for the chat completion, `Outcome` for page fetches. The request payloads sent to the language model are not modelled beyond the user message.
- Fire-and-forget calls to `/api/track` and console logging are not modelled.
- The `alert` shown when a vote fails is not modelled.
- The DB-side `eq`, `gte`, `order` and `limit(20)` of the admin queries are not modelled. The rows the database returns are an input.
- The catch-all 500 of the two admin routes is not modelled. Nothing in the modelled code throws.
- The local calendar date is an input (`Clock.today`): time-zone rules belong to the runtime. The UTC date is computed from the instant.
- `new URL(...).host` for the admin routes' `projectHost` is an input.
- Quota.ParseCookies: `decodeURIComponent` of cookie values is not modelled; values are taken as written. In the source a value with a stray `%` (such as `rex_id=a%zz`) makes it throw `URIError`: `GET /api/quota` then fails with a 500, and `POST /api/quota` answers 400 "Bad Request" and counts nothing. The model reads such a cookie as its raw text and answers as for any other id.
- The quota store is a Dafny map. In the source it is a plain object, so a cookie id such as `constructor` would reach an inherited member.
- Quota.SetCookie: `encodeURIComponent` is modelled as the identity, so the method requires a value made only of the characters that function leaves unchanged (letters, digits and `-_.!~*'()`). Every id that `getOrCreateClientId` produces is such a value.
- Recs.ModelAnswer: the `detail` text of a thrown call is not specified. The contract states only the status.
- Json.Parse: numbers are integers only. A fraction (`8.5`) or an exponent (`1e3`) is refused as if `JSON.parse` threw, where the source reads a number. A `\u` escape of an unpaired surrogate is refused too, because a Dafny string holds Unicode scalar values only; an escaped surrogate pair is decoded. Each caller below changes its outcome on such text.
- QuotaApi.PostBody: a string body holding such a number or escape is taken as unparseable, where the source parses it.
- QuotaApi.ClassifyPost: for such a body the model answers 400 "Bad Request", where the source reads `action`, `chainId`, `tier` and `beta` and can answer 200 with the chain counted.
- Recs.SafeParse: a model answer holding such a number or escape (a rating of `8.5`, say) gives no payload, where the source returns the sanitised payload.
- Recs.ItemsOf: for such an answer no items are found, where the source finds them.
- Recs.ModelAnswer: for such an answer the model gives 502 "Bad model output", where the source answers 200 with the sanitised items.
- BetaUnlock.Read: stored text holding such a number or escape reads as no beta flags, where the source reads the flags. The app's own writer stores booleans and the email text only, which read back unchanged.
- SoftWall.ReadChain: stored chain text holding such a number or escape reads as no chain, where the source reads the chain.
- ResultsV4.LoadFeedback: stored text holding such a number or escape reads as no feedback, where the source reads the entries. Also, the source casts whatever parses to `Feedback[]` unchecked: an object, or a list of non-entries, is returned as it is and breaks later use. The model returns no feedback for those.
- Base.ToLower: lowers the ASCII capitals A to Z only. JavaScript's `toLowerCase` also lowers other scripts, maps U+212A KELVIN SIGN to `k` and U+0130 to two characters. This matters for the slug of `/api/recs` (`src/pages/api/recs.ts:76`) and for the seed vertical (`src/pages/api/seed.ts:160`); the tier names `free` and `paid` of the soft wall are reached by no other character.
- Seed.Vertical: keeps the length of the parameter and lowers ASCII capitals only, so `?v=BOO\u212AS` (with a Kelvin sign) gets the empty list here, where the source serves the books.
- `Number`, `parseInt` and `String` are modelled on integers and NaN only (`JsNumber`). Fractions, exponents and infinities are not modelled. `Number` does read the `0x`, `0o` and `0b` forms; `parseInt` is always called with radix 10 here, which reads `0x10` as 0.
- JavaScript numbers are doubles; `JsNumber` holds unbounded integers. Two effects of doubles are not modelled. From 2^53 on, `n + 1` can equal `n`. From 1e21 on, `String(n)` writes exponent form (`1e+21`), which `parseInt(…, 10)` reads back as 1. Only a stored counter that was edited by hand, or one that took that many searches, reaches these values. Each member below states its contract on unbounded integers and does not hold at such values in the source.
- Base.NatToString: gives the decimal digits of every natural number, where `String(n)` switches to `1e+21` form at 1e21 and writes the nearest double's digits above 2^53.
- Base.ParseIntOfNat: `parseInt(String(n), 10)` is `n` here; in the source it is 1 for n = 1e21 (the text is `1e+21`).
- Base.ParseIntOfNegative: the same for negatives; `parseInt(String(-1e21), 10)` is -1 in the source.
- Base.ParseIntOfNumberToString: the `parseInt`/`String` round trip holds for every integer here, and fails in the source from magnitude 1e21.
- SoftWall.CountWritten: a count written with `String` reads back as itself (`src/lib/softWall.ts:45,50`); in the source a count of 1e21 or more reads back as 1.
- SoftWall.IncrementKey: the stored count goes up by one; in the source `getCount() + 1` (`src/lib/softWall.ts:50`) leaves a count at or above 2^53 that is not exactly representable unchanged, and a count of 1e21 or more drops to 1.
- SoftWall.Increment: the same gap as `SoftWall.IncrementKey`, for today's key.
- SoftWall.PlusOne: `refines + 1` on a stored number `n` is `n + 1` here; in the source it can be `n` itself from 2^53 on (2^53 + 1 rounds to 2^53).
- AppTokens.StoredRoundTrip: counters read back as written (`src/App.js:26,33,38,41`); in the source a counter of 1e21 or more is written as `1e+21` and read back as 1.
- HomeCounter.Counter.Increment: the count goes up by one; in the source `used + 1` (`src/app/page.tsx:23`) can equal `used` from 2^53 on.
- Recs.ModelAnswer: the `detail` of a non-2xx answer is its first 500 characters (Unicode scalar values), where `text.slice(0, 500)` (`src/pages/api/recs.ts:130`) counts UTF-16 code units. Each astral character (an emoji, say) before that point makes the model's `detail` one unit longer, and the source may cut a surrogate pair in half, which a Dafny string cannot hold.
- AdminStats.DayOf and AdminRecent.Below also measure and compare strings by Unicode scalar value, where JavaScript uses UTF-16 code units. The two agree on ASCII text, and the timestamps they are applied to are ISO 8601 strings, which are ASCII, so both are unaffected there.
- UI timers are not modelled: the nudge's 3.5-second timer is a separate `HideNudge` step, and the modifier rotation is a pure step. Rendering and focus handling are not modelled.
- The regular-expression tests of the suggestion chips are an input: the set of keys whose test matched.
- The React effect clean-up flag of `ResultsPage.js` is the `cancelled` parameter.
- The `ts` of a feedback record (`new Date().toISOString()`) is a parameter.
- The random suffixes of session ids and chain ids (`Math.random().toString(36)`) are parameters.
- The `storage` events that keep tabs in step are not modelled.
- Concurrency between tabs or server instances is not modelled.
- `useMemo` and `useCallback` caching is not modelled. Derived values are recomputed from the state.

## Findings

| source | as written | input that shows it | evidently intended | confidence | as-written member | corrected member |
|---|---|---|---|---|---|---|
| src/components/ResultsPage.js:118-144 | the search effect depends on `hasTokens` and `consumeToken`, which change with every counter update, so each answered search schedules another | any non-empty query while a token is left: the effect reruns until none is left, and the last run replaces the answer with the out-of-tokens message | one search per query and refinement, spending one token | high (not executed) | ResultsPage.SearchAsWritten | ResultsPage.Search |
| src/components/ResultsPage.js:45 | the separator `/\s+[-–]\s+/` accepts a hyphen and an en dash only | the answer line `Dune — Epic` (em dash), which becomes the title `Dune — Epic` with no description | split on the em dash the answer format asks for | high (not executed) | ResultsPage.EmDashNotSplit | ResultsPage.EmDashSplit |
| src/pages/results.tsx:37-43 | the query is passed only as `autoRunQuery`, never as `initialQuery` | `/results?q=dune&v=books` asks for "Find 5 popular books" | ask for "dune" | high (not executed) | ResultsRoute.Page | ResultsRoute.CorrectedPage |
| src/app/page.tsx:72-83 | the auto-run effect calls the `run` of the render that scheduled it, which still holds the old category and, on mount, an empty month key | `/?q=dune&cat=books` on a fresh page posts category "universal" and leaves the monthly count unchanged | post "books" and count the search | high (not executed) | HomeCounter.Home.Boot | HomeCounter.Home.BootIntended |
| src/pages/api/seed.ts:161 | `SEEDS[v]` on a plain object reaches inherited members | `?v=constructor` gives a reply without `items`; `?v=__proto__` gives `items` as an object | an own-key lookup, so unknown verticals get `[]` | medium (not executed) | Seed.InheritedKeysBreakReply | Seed.Reply |
