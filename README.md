# Hyleria core, modelled in Dafny

This project models four small pieces of the Hyleria Minecraft network's code
and proves properties of them:

- **The account database** (`Database`, module `AccountStore`). It has a local
  account cache keyed by UUID, with commit, invalidate, contains and fetch
  (by UUID, or by username as a case-insensitive scan). It also has the fetch
  protocol: pick the identity mode, try the cache if asked, and otherwise take
  the first stored document matching `uuid` or `name_lower`, populated into a
  new account. The document collection is a `seq<Document>`. The executor is
  a queue of update tasks.
- **The account record** (`Account`, module `AccountStore`): login-data
  construction; population from a stored document; the untyped reads `val`
  and `isPresent`; `addVal` into a side map; the optimistic role change that
  queues one update; and serialisation with `asDocument`. Documents, UUIDs
  and the Java string case operations they use are in module `Bson`.
- **The sidebar** (`PlayerScoreboard`, module `Scoreboard`):
  - the line buffer and its builder operations;
  - `draw()`, which de-duplicates the lines with reset codes, then diffs them
    against the fifteen-slot `current` array and updates it in place;
  - the title animation.

  The Bukkit scoreboard is a map of scores plus the trace of calls made on it.
- **Two utilities:** `MapBuilder` (module `Collections`) over an in-place hash
  map, and the chest `Tier` enum (module `Tiers`). In `Tier`, the random
  draw `Math.chance(c)` is an oracle function.

Java nulls are `Option`s, and Java exceptions are `Result` errors (module
`Results`). Classes whose fields the code changes in place are Dafny classes.
Their methods say exactly what they change. The code that only computes
values is written as functions and lemmas.

Resolved questions about the code:

- A lookup given both a UUID and a username goes by UUID; given neither, it
  raises NullPointerException.
- The role change is a plain `updateOne`, so a missing document is not inserted.
- A document without a list field reads it back as null, not as an empty list.
- Custom data added with `addVal` is written last by `asDocument` and can
  replace a typed key, `uuid` and `name_lower` included.
- The Javadoc of `Tier` says every chance lies between 1 and 100. The code's
  `BAD` tier has a good chance of 0, and the model follows the code.
- Where the code differs from its documentation, the model follows the code.

## Model

| member | source | states |
|---|---|---|
| Bson.Get | common/src/main/java/com/hyleria/common/account/Account.java:81-84 | `Document.get(key, type)`: null exactly when the key is absent or holds null; a ClassCastException exactly when the value has another type; otherwise that value |
| Bson.GetString | common/src/main/java/com/hyleria/common/account/Account.java:162-166 | `getString`: null for an absent or null key; ClassCastException exactly when a non-null non-string value is stored; otherwise that string |
| Bson.GetList | common/src/main/java/com/hyleria/common/account/Account.java:165-167 | `get(key, List.class)`: null for an absent or null key; ClassCastException exactly when a non-null non-list value is stored; otherwise that list |
| Bson.StrOrNullRoundTrip | common/src/main/java/com/hyleria/common/account/Account.java:147-171 | a nullable string stored under a key reads back unchanged through `getString` |
| Bson.ListOrNullRoundTrip | common/src/main/java/com/hyleria/common/account/Account.java:147-171 | a nullable list stored under a key reads back unchanged through `get(key, List.class)` |
| Bson.ToLower | common/src/main/java/com/hyleria/common/account/Account.java:154 | `toLowerCase` keeps the length and folds each character on its own |
| Bson.ToLowerIdempotent | common/src/main/java/com/hyleria/common/account/Account.java:154 | lower-casing an already lower-cased name changes nothing |
| Bson.EqualsIgnoreCase | common/src/main/java/com/hyleria/common/mongo/Database.java:183 | `equalsIgnoreCase`: same length, and at each position the characters are equal, equal upper-cased, or equal lower-cased |
| Bson.EqualsIgnoreCaseIsLowerEquality | common/src/main/java/com/hyleria/common/mongo/Database.java:179-186 | `equalsIgnoreCase` holds exactly when the lower-cased forms are equal, which ties the cache's username scan to the store's `name_lower` filter |
| Bson.UuidToString | common/src/main/java/com/hyleria/common/mongo/Database.java:289 | `UUID.toString()` is the 36-character 8-4-4-4-12 hexadecimal form, in lower case |
| Bson.ParseUuid | common/src/main/java/com/hyleria/common/account/Account.java:162 | `UUID.fromString`: NullPointerException for null, IllegalArgumentException for text not in UUID form, otherwise the UUID whose text is the lower-cased input |
| Bson.ParseUuidToString | common/src/main/java/com/hyleria/common/account/Account.java:153-162 | parsing the text written for a UUID gives that UUID back |
| AccountStore.RoleValueOf | common/src/main/java/com/hyleria/common/account/Account.java:164 | `Role.valueOf`: NullPointerException for null, IllegalArgumentException for an unknown name, otherwise the role of that name |
| AccountStore.RoleName | common/src/main/java/com/hyleria/common/account/Account.java:122 | `Role.name()`: the constant's own name, which RoleNameRoundTrip shows `valueOf` inverts |
| AccountStore.RoleNameRoundTrip | common/src/main/java/com/hyleria/common/account/Account.java:164 | reading back the name written for a role gives that role |
| AccountStore.Encode | common/src/main/java/com/hyleria/common/account/Account.java:147-157 | `asDocument`: NullPointerException exactly when the uuid or the name is null; otherwise the typed keys and the custom keys; custom entries win; `uuid` is the UUID text and `name_lower` the lower-cased name unless a custom entry replaces them; every other typed key holds the written field |
| AccountStore.Decode | common/src/main/java/com/hyleria/common/account/Account.java:160-171 | `populateFromDocument`'s reads: on success each typed field is what its getter reads from the document, with the uuid parsed and the role looked up by name; a missing `uuid` gives NullPointerException and a missing `role` an error |
| AccountStore.ReadErrors | common/src/main/java/com/hyleria/common/account/Account.java:162-167 | the reads in the source's order, each with the exception it raises: `uuid` and its parse, `name`, `role` and its lookup, the two lists and the current address |
| AccountStore.FirstError | common/src/main/java/com/hyleria/common/account/Account.java:162-167 | the first exception in that order, and none exactly when every read succeeds |
| AccountStore.DecodeFirstError | common/src/main/java/com/hyleria/common/account/Account.java:160-171 | population succeeds exactly when every read does, and otherwise fails with the exception of the first read that fails |
| AccountStore.DecodeEncode | common/src/main/java/com/hyleria/common/account/Account.java:147-171 | round trip: reading back `asDocument()` restores every typed field when uuid and name are set and no custom entry shadows a typed key |
| AccountStore.MinimalDocumentDecodes | common/src/main/java/com/hyleria/common/account/Account.java:160-171 | a document holding only `uuid`, `name`, `name_lower` and `role` populates an account whose name lists, address list and current address are null |
| AccountStore.CustomOverridesTypedKey | common/src/main/java/com/hyleria/common/account/Account.java:155 | a custom entry under a typed key replaces the typed value in the written document |
| AccountStore.EncodedDocumentMatchesFilters | common/src/main/java/com/hyleria/common/account/Account.java:153-154 | the written document matches the `uuid` filter for the account's UUID and the `name_lower` filter for any name equal to the account's ignoring case |
| AccountStore.FindFirst | common/src/main/java/com/hyleria/common/mongo/Database.java:288-290 | `find(eq(field, v)).limit(1).first()`: the index of the first matching document, none exactly when no document matches |
| AccountStore.Matches | common/src/main/java/com/hyleria/common/mongo/Database.java:288-290 | the equality filter `eq(field, v)`: the document has the field, and it holds v or an array with v among its elements |
| AccountStore.StoreFilter | common/src/main/java/com/hyleria/common/mongo/Database.java:288-290 | the filter a fetch sends: `name_lower` against the lower-cased username in username mode, `uuid` against the UUID text otherwise, NullPointerException for a null UUID outside username mode |
| AccountStore.ByUsername | common/src/main/java/com/hyleria/common/mongo/Database.java:266 | `_useUsername`: a lookup is by username exactly when no UUID and a username are given |
| AccountStore.UuidWinsOverUsername | common/src/main/java/com/hyleria/common/mongo/Database.java:266 | given both a UUID and a username, the lookup is by UUID and ignores the username |
| AccountStore.StoreAnswer | common/src/main/java/com/hyleria/common/mongo/Database.java:288-293 | the store's answer: the filter's error; no document exactly when none matches; otherwise the first matching document in collection order |
| AccountStore.ArrayUuidIsFoundButUnreadable | common/src/main/java/com/hyleria/common/mongo/Database.java:288-293 | a document whose `uuid` is an array holding the UUID text is what the lookup finds, and populating from it raises ClassCastException |
| AccountStore.RoleTask | common/src/main/java/com/hyleria/common/account/Account.java:122 | the update a role change queues: filter `uuid` on the uuid text (NullPointerException when it runs for a null uuid), set `role` to the role's name |
| AccountStore.RunTask | common/src/main/java/com/hyleria/common/account/Account.java:122 | `updateOne(eq(...), set(...))`: a null filter value raises NullPointerException, and any other filter succeeds; the first matching document, and only it, gets the field set; with no match nothing changes (no insert) |
| AccountStore.DecodeSetRole | common/src/main/java/com/hyleria/common/account/Account.java:164 | setting the stored role changes the role read back and no other field |
| AccountStore.RoleTaskIsVisibleToFetch | common/src/main/java/com/hyleria/common/account/Account.java:118-125 | after the queued role update runs, fetching the account by UUID reads the new role and every other field as before |
| AccountStore.Account.constructor | common/src/main/java/com/hyleria/common/account/Account.java:28-46 | a new account: every typed field at its declared default (role PLAYER, empty `previous_names` and `previous_addresses` lists), no document, no custom data |
| AccountStore.Account.FromLoginData | common/src/main/java/com/hyleria/common/account/Account.java:183-192 | a fresh account with the given uuid, name and address, role PLAYER, empty `previous_names` and `previous_addresses` lists and no document |
| AccountStore.Account.Val | common/src/main/java/com/hyleria/common/account/Account.java:81-84 | `val`: NullPointerException without a loaded document; otherwise exactly `Document.get(key, type)` on it: null for an absent or null key, ClassCastException for a value of another type, the stored value otherwise |
| AccountStore.Account.IsPresent | common/src/main/java/com/hyleria/common/account/Account.java:106-109 | `isPresent`: NullPointerException without a loaded document; otherwise whether the document has the key |
| AccountStore.Account.AddVal | common/src/main/java/com/hyleria/common/account/Account.java:93-97 | `addVal` puts the entry into the custom data only and returns this account; `val` and `isPresent` answer as before for every key |
| AccountStore.Account.SetRole | common/src/main/java/com/hyleria/common/account/Account.java:118-125 | `role(newRole, db)` sets the role before returning and queues exactly one update task, the role task for this account's uuid and the new role |
| AccountStore.Account.AsDocument | common/src/main/java/com/hyleria/common/account/Account.java:147-157 | `asDocument` is the encoding of the account's typed fields and custom data: NullPointerException exactly when uuid or name is null; `uuid` written as its text and `name_lower` from the current name, custom entries merged last; no `raw` or `customData` key unless that is a custom entry |
| AccountStore.Account.PopulateFromDocument | common/src/main/java/com/hyleria/common/account/Account.java:160-171 | succeeds exactly when the document decodes; it then returns this account with the decoded fields and the document recorded; a failure raises the first failing read's exception, leaves the recorded document as it was; custom data never changes |
| AccountStore.ReadsAfterPopulate | common/src/main/java/com/hyleria/common/account/Account.java:168 | once a document is recorded, `isPresent` answers from its keys and string `val` reads return its values |
| AccountStore.Database.constructor | common/src/main/java/com/hyleria/common/mongo/Database.java:84-87 | a database starts with an empty cache and an empty task queue over the given collection |
| AccountStore.Database.SubmitTask | common/src/main/java/com/hyleria/common/mongo/Database.java:107-110 | `submitTask` queues exactly that task at the end |
| AccountStore.Database.CacheFetchUuid | common/src/main/java/com/hyleria/common/mongo/Database.java:195-198 | `cacheFetch(uuid)`: present exactly when the uuid is cached, and then the cached account |
| AccountStore.Database.CacheContainsUuid | common/src/main/java/com/hyleria/common/mongo/Database.java:142-145 | `cacheContains(uuid)` agrees with `cacheFetch(uuid)` |
| AccountStore.Database.CacheContainsName | common/src/main/java/com/hyleria/common/mongo/Database.java:128-131 | `cacheContains(username)`: true only when some cached account's name equals the argument exactly (case matters), false only when none does; NullPointerException only when an account without a name is cached; no failure when every account has a name |
| AccountStore.Database.CacheFetchName | common/src/main/java/com/hyleria/common/mongo/Database.java:179-186 | `cacheFetch(username)`: a present answer is a cached account whose name equals the argument ignoring case; empty only when no cached name does; NullPointerException only when an unnamed account is cached |
| AccountStore.Database.CacheInvalidate | common/src/main/java/com/hyleria/common/mongo/Database.java:154-158 | removes exactly that uuid, so `cacheFetch` of it is empty and every other entry is unchanged; returns the same database |
| AccountStore.Database.CacheCommit | common/src/main/java/com/hyleria/common/mongo/Database.java:166-170 | stores the account under its uuid, replacing any account there, and returns it; `cacheContains` and `cacheFetch` then find it; other entries unchanged; a null uuid raises NullPointerException and stores nothing |
| AccountStore.Database.LoadedFrom | common/src/main/java/com/hyleria/common/mongo/Database.java:292-293 | a new account, not cached, populated from the found document: its typed fields are the decoded ones, the document is recorded, no custom data |
| AccountStore.Database.FromStore | common/src/main/java/com/hyleria/common/mongo/Database.java:286-293 | the store step of a fetch: the filter's error, empty for no match, the first match's population error, or an account loaded from the first match |
| AccountStore.Database.Resolved | common/src/main/java/com/hyleria/common/mongo/Database.java:268-294 | the fetch's resolution order: a null UUID in UUID mode fails; with `useCache` a cached account answers (by UUID, or by a name equal ignoring case) and a scan reaching an unnamed account fails; otherwise the store step answers |
| AccountStore.Database.Transaction | common/src/main/java/com/hyleria/common/mongo/Database.java:268-294 | the resolution order: a null UUID outside username mode fails; with `useCache` a cached account (by UUID, or by name ignoring case) is returned; otherwise the store's first match, freshly populated, or empty when nothing matches; the cache is never written |
| AccountStore.Database.FetchAccount | common/src/main/java/com/hyleria/common/mongo/Database.java:264-310 | the asynchronous path returns a future holding the transaction's outcome; the synchronous path returns a future holding it, or a RuntimeException when the transaction fails |
| AccountStore.Database.FetchAccountByName | common/src/main/java/com/hyleria/common/mongo/Database.java:208-211 | `fetchAccount(username)` resolves by username, cache first, asynchronously |
| AccountStore.Database.FetchAccountByUuid | common/src/main/java/com/hyleria/common/mongo/Database.java:222-225 | `fetchAccount(uuid, callback)` resolves by UUID, cache first, asynchronously; the callback plays no part |
| AccountStore.Database.FetchAccountSyncAsWritten | common/src/main/java/com/hyleria/common/mongo/Database.java:237-240 | as written, a synchronous fetch by UUID raises ClassCastException whenever the transaction succeeds, and RuntimeException when it fails |
| AccountStore.Database.FetchAccountSync | common/src/main/java/com/hyleria/common/mongo/Database.java:237-240 | as intended, a synchronous fetch by UUID answers the transaction's outcome, or RuntimeException when it fails |
| AccountStore.UnknownPlayerSyncFetch | common/src/main/java/com/hyleria/common/mongo/Database.java:299-302 | for a player the store does not know, the synchronous fetch as written raises ClassCastException where the intended answer is an empty Optional |
| AccountStore.UsernameQueriesDifferOnCase | common/src/main/java/com/hyleria/common/mongo/Database.java:128-131 | with "Steve" cached, `cacheContains("steve")` is false while `cacheFetch("steve")` returns the account |
| Scoreboard.Truncate | spigot-plugin/src/main/java/com/hyleria/coeus/scoreboard/PlayerScoreboard.java:161 | the first `min(16, length)` characters: a prefix of that length, the whole content when it is short enough |
| Scoreboard.Bold | spigot-plugin/src/main/java/com/hyleria/coeus/scoreboard/PlayerScoreboard.java:200 | `bold(colour)`: the colour followed by the bold code |
| Scoreboard.PadCountFrom | spigot-plugin/src/main/java/com/hyleria/coeus/scoreboard/PlayerScoreboard.java:67-82 | the least number of reset codes, from k on, that makes the line differ from every drawn line; every smaller count from k gives a drawn line |
| Scoreboard.PadCount | spigot-plugin/src/main/java/com/hyleria/coeus/scoreboard/PlayerScoreboard.java:67-82 | the least number of reset codes that makes the line differ from every drawn line |
| Scoreboard.PadCountIsFirstUnseen | spigot-plugin/src/main/java/com/hyleria/coeus/scoreboard/PlayerScoreboard.java:67-82 | any count whose padding is undrawn while every smaller one is drawn is that least count |
| Scoreboard.Unique | spigot-plugin/src/main/java/com/hyleria/coeus/scoreboard/PlayerScoreboard.java:67-84 | the line followed by that least number of reset codes, which no drawn line equals |
| Scoreboard.Dedup | spigot-plugin/src/main/java/com/hyleria/coeus/scoreboard/PlayerScoreboard.java:63-86 | the de-duplicated lines have as many entries as the written lines |
| Scoreboard.DedupPrefix | spigot-plugin/src/main/java/com/hyleria/coeus/scoreboard/PlayerScoreboard.java:65-86 | de-duplicating a prefix of the lines gives the prefix of the de-duplicated lines |
| Scoreboard.DedupAt | spigot-plugin/src/main/java/com/hyleria/coeus/scoreboard/PlayerScoreboard.java:65-86 | each drawn line is the written line followed by reset codes, as few as make it differ from the lines above it |
| Scoreboard.DedupDistinct | spigot-plugin/src/main/java/com/hyleria/coeus/scoreboard/PlayerScoreboard.java:65-86 | no two drawn lines are equal |
| Scoreboard.DedupOfDistinct | spigot-plugin/src/main/java/com/hyleria/coeus/scoreboard/PlayerScoreboard.java:65-86 | lines that are already distinct are drawn unchanged |
| Scoreboard.LayoutDistinct | spigot-plugin/src/main/java/com/hyleria/coeus/scoreboard/PlayerScoreboard.java:91-119 | distinct drawn lines occupy distinct slots |
| Scoreboard.ResetCallsEffect | spigot-plugin/src/main/java/com/hyleria/coeus/scoreboard/PlayerScoreboard.java:108-112 | the reset phase removes exactly the scores of the stale lines (changed slots and slots past the end) |
| Scoreboard.AddCallsEffect | spigot-plugin/src/main/java/com/hyleria/coeus/scoreboard/PlayerScoreboard.java:114-119 | the add phase gives a score to exactly the lines of the changed slots and leaves every other score as it was |
| Scoreboard.RankCallsKeys | spigot-plugin/src/main/java/com/hyleria/coeus/scoreboard/PlayerScoreboard.java:121-125 | the ranking phase adds exactly the visible lines' entries and keeps every other score |
| Scoreboard.RankCallsScores | spigot-plugin/src/main/java/com/hyleria/coeus/scoreboard/PlayerScoreboard.java:121-125 | after ranking, visible line i scores `size - i` |
| Scoreboard.ScoresAfterDraw | spigot-plugin/src/main/java/com/hyleria/coeus/scoreboard/PlayerScoreboard.java:88-125 | after a draw: visible line i scores `size - i`; the entries are the old ones less the stale lines, plus the visible lines; every other entry keeps its score |
| Scoreboard.KeptLineIsUntouched | spigot-plugin/src/main/java/com/hyleria/coeus/scoreboard/PlayerScoreboard.java:101-119 | a line that stays in its slot is neither reset nor given a provisional score (no flicker) |
| Scoreboard.RedrawIsQuiet | spigot-plugin/src/main/java/com/hyleria/coeus/scoreboard/PlayerScoreboard.java:91-119 | redrawing the lines already shown resets nothing and adds nothing |
| Scoreboard.CountSomeLayout | spigot-plugin/src/main/java/com/hyleria/coeus/scoreboard/PlayerScoreboard.java:226-235 | after drawing, the occupied slots number `min(15, lines)` |
| Scoreboard.FrameAfterCycles | spigot-plugin/src/main/java/com/hyleria/coeus/scoreboard/PlayerScoreboard.java:185-189 | the frame stays in [0, 14] and after n ticks it is `(frame + n) mod 15` |
| Scoreboard.Elapsed | spigot-plugin/src/main/java/com/hyleria/coeus/scoreboard/PlayerScoreboard.java:178 | `TimeUtil.elapsed(since, 3200)`: more than the duration has passed since `since` |
| Scoreboard.NextFrame | spigot-plugin/src/main/java/com/hyleria/coeus/scoreboard/PlayerScoreboard.java:185-189 | the frame after a tick: one more, wrapping from 14 to 0 |
| Scoreboard.FrameAfter | spigot-plugin/src/main/java/com/hyleria/coeus/scoreboard/PlayerScoreboard.java:185-189 | the frame after n ticks, each advancing by NextFrame |
| Scoreboard.Highlight | spigot-plugin/src/main/java/com/hyleria/coeus/scoreboard/PlayerScoreboard.java:207-216 | the sweep: the characters of the text, the one at the frame wrapped in aqua and dark-aqua bold codes |
| Scoreboard.Animated | spigot-plugin/src/main/java/com/hyleria/coeus/scoreboard/PlayerScoreboard.java:200-219 | `addAnimation`: dark-aqua bold, then the aqua flash at frames length+1 and length+3, the dark-aqua flash at length+2 and length+4, the sweep otherwise |
| Scoreboard.HighlightShape | spigot-plugin/src/main/java/com/hyleria/coeus/scoreboard/PlayerScoreboard.java:207-216 | the sweep keeps the characters before the frame, wraps the frame's character in colour codes (8 more characters), keeps those after it; a frame past the text leaves it unchanged |
| Scoreboard.TitleFrames | spigot-plugin/src/main/java/com/hyleria/coeus/scoreboard/PlayerScoreboard.java:198-220 | over one cycle of the title: frames 0-10 sweep its characters, frame 11 shows it plain, 12 and 14 flash aqua, 13 dark aqua |
| Scoreboard.PlayerScoreboard.constructor | spigot-plugin/src/main/java/com/hyleria/coeus/scoreboard/PlayerScoreboard.java:41-59 | a new board: no lines, fifteen empty slots, no scores, the aqua title, frame 0 and the cycle clock at `now` |
| Scoreboard.PlayerScoreboard.Purge | spigot-plugin/src/main/java/com/hyleria/coeus/scoreboard/PlayerScoreboard.java:131-134 | `purge` empties the lines |
| Scoreboard.PlayerScoreboard.Space | spigot-plugin/src/main/java/com/hyleria/coeus/scoreboard/PlayerScoreboard.java:139-142 | `space` appends a blank line |
| Scoreboard.PlayerScoreboard.Write | spigot-plugin/src/main/java/com/hyleria/coeus/scoreboard/PlayerScoreboard.java:159-162 | `write` appends the truncated content |
| Scoreboard.PlayerScoreboard.WriteHead | spigot-plugin/src/main/java/com/hyleria/coeus/scoreboard/PlayerScoreboard.java:149-152 | `writeHead` appends the bold heading through the same truncation |
| Scoreboard.PlayerScoreboard.WriteURL | spigot-plugin/src/main/java/com/hyleria/coeus/scoreboard/PlayerScoreboard.java:167-171 | `writeURL` appends a blank line, then the yellow address, untruncated |
| Scoreboard.PlayerScoreboard.NonNullSize | spigot-plugin/src/main/java/com/hyleria/coeus/scoreboard/PlayerScoreboard.java:226-235 | `nonNullSize` counts the occupied slots |
| Scoreboard.PlayerScoreboard.Draw | spigot-plugin/src/main/java/com/hyleria/coeus/scoreboard/PlayerScoreboard.java:61-126 | `draw` leaves the slots showing the de-duplicated lines (the first fifteen; empty beyond), keeps every line in at most one slot, and makes exactly the reset, add and rank calls of the three phases, whose effect on the scores is as computed |
| Scoreboard.PlayerScoreboard.Render | spigot-plugin/src/main/java/com/hyleria/coeus/scoreboard/PlayerScoreboard.java:88-125 | showing distinct lines: the slots end as their layout; the calls are the three phases; the scores are those calls applied |
| Scoreboard.PlayerScoreboard.Diff | spigot-plugin/src/main/java/com/hyleria/coeus/scoreboard/PlayerScoreboard.java:88-106 | slot i is to clear exactly when it must show another line or falls past the end while occupied; it is to fill exactly when it must show a line it does not show |
| Scoreboard.PlayerScoreboard.Send | spigot-plugin/src/main/java/com/hyleria/coeus/scoreboard/PlayerScoreboard.java:110-116 | one call on the backing scoreboard: it is recorded, and applied to the scores |
| Scoreboard.PlayerScoreboard.ClearStale | spigot-plugin/src/main/java/com/hyleria/coeus/scoreboard/PlayerScoreboard.java:108-112 | the stale slots are emptied and their lines reset in ascending slot order |
| Scoreboard.PlayerScoreboard.FillChanged | spigot-plugin/src/main/java/com/hyleria/coeus/scoreboard/PlayerScoreboard.java:114-119 | each changed slot gets its line and the provisional score `15 - i`, in ascending slot order; the slots then equal the layout |
| Scoreboard.PlayerScoreboard.RankLines | spigot-plugin/src/main/java/com/hyleria/coeus/scoreboard/PlayerScoreboard.java:121-125 | the lines of the first `size` slots get the scores `size - i`, from the top |
| Scoreboard.PlayerScoreboard.Dedupe | spigot-plugin/src/main/java/com/hyleria/coeus/scoreboard/PlayerScoreboard.java:63-86 | the loop's result is the de-duplicated lines |
| Scoreboard.PlayerScoreboard.PadLine | spigot-plugin/src/main/java/com/hyleria/coeus/scoreboard/PlayerScoreboard.java:67-82 | the `while (true)` loop ends, with the line padded by as few reset codes as make it undrawn |
| Scoreboard.PlayerScoreboard.ScanDrawn | spigot-plugin/src/main/java/com/hyleria/coeus/scoreboard/PlayerScoreboard.java:71-78 | one pass over the drawn lines: codes are appended while they match, each padding it passed was drawn, and an unmatched pass means the line is undrawn |
| Scoreboard.PlayerScoreboard.AddAnimation | spigot-plugin/src/main/java/com/hyleria/coeus/scoreboard/PlayerScoreboard.java:198-220 | `addAnimation` produces the title text for the current frame: the sweep, or one of the two flashes |
| Scoreboard.PlayerScoreboard.AnimationTick | spigot-plugin/src/main/java/com/hyleria/coeus/scoreboard/PlayerScoreboard.java:176-190 | nothing changes before 3200 ms have passed; then the title shows the current frame and the frame advances, wrapping from 14 to 0, and only the wrap restarts the cycle clock; the frame stays in [0, 14] |
| Scoreboard.UpdateUhcScoreboard | spigot-plugin/src/main/java/com/hyleria/coeus/available/uhc/UHC.java:91-102 | the UHC sidebar update writes exactly the eight expected lines and draws them |
| Collections.HashMap.constructor | common/src/main/java/com/hyleria/common/collection/MapBuilder.java:16 | a new map is empty |
| Collections.HashMap.Get | common/src/main/java/com/hyleria/common/collection/MapBuilder.java:47-50 | a read of the map answers the entry under the key, or null |
| Collections.HashMap.Put | common/src/main/java/com/hyleria/common/collection/MapBuilder.java:40 | `put` sets the key's value, leaves every other key and returns the previous value |
| Collections.UnmodifiableMap.constructor | common/src/main/java/com/hyleria/common/collection/MapBuilder.java:58 | the view reads the given map |
| Collections.UnmodifiableMap.Get | common/src/main/java/com/hyleria/common/collection/MapBuilder.java:56-59 | the view answers what the backing map holds now |
| Collections.UnmodifiableMap.Put | common/src/main/java/com/hyleria/common/collection/MapBuilder.java:56-59 | writing through the view raises UnsupportedOperationException |
| Collections.MapBuilder.constructor | common/src/main/java/com/hyleria/common/collection/MapBuilder.java:16 | a builder owns a new, empty map |
| Collections.MapBuilder.Builder | common/src/main/java/com/hyleria/common/collection/MapBuilder.java:25-28 | `builder` gives a new builder over a new, empty map |
| Collections.MapBuilder.Add | common/src/main/java/com/hyleria/common/collection/MapBuilder.java:38-42 | `add` sets the key's value in the backing map, leaves every other key, and returns the same builder |
| Collections.MapBuilder.Regular | common/src/main/java/com/hyleria/common/collection/MapBuilder.java:47-50 | `regular` returns the backing map itself |
| Collections.MapBuilder.Unmodifiable | common/src/main/java/com/hyleria/common/collection/MapBuilder.java:56-59 | `unmodifiable` returns a new view of the backing map itself |
| Collections.BuildChain | common/src/main/java/com/hyleria/common/collection/MapBuilder.java:38-59 | chained adds on one builder: the last write to a key wins, the earlier `regular()` map and the view see every add, and the view refuses writes |
| Tiers.BadChance | spigot-plugin/src/main/java/com/hyleria/coeus/available/uhcg/utils/Tier.java:18-48 | `getBadChance()`: 90, 95 and 100 for BAD, LOW and HIGH |
| Tiers.AverageChance | spigot-plugin/src/main/java/com/hyleria/coeus/available/uhcg/utils/Tier.java:18-43 | `getAverageChance()`: 50, 75 and 75 for BAD, LOW and HIGH |
| Tiers.GoodChance | spigot-plugin/src/main/java/com/hyleria/coeus/available/uhcg/utils/Tier.java:18-53 | `getGoodChance()`: 0, 7 and 25 for BAD, LOW and HIGH |
| Tiers.ChancesAreOrdered | spigot-plugin/src/main/java/com/hyleria/coeus/available/uhcg/utils/Tier.java:18-53 | the constants are percentages with good ≤ average ≤ bad, and a better tier never lowers the good or average chance |
| Tiers.MaxChance | spigot-plugin/src/main/java/com/hyleria/coeus/available/uhcg/utils/Tier.java:75-78 | `maxChance` is 0 for a non-positive max and never more than max |
| Tiers.MaxChanceCountsSuccesses | spigot-plugin/src/main/java/com/hyleria/coeus/available/uhcg/utils/Tier.java:77 | `maxChance(max, c)` is the number of draws in [0, max) that succeed |
| Tiers.MaxChanceExtremes | spigot-plugin/src/main/java/com/hyleria/coeus/available/uhcg/utils/Tier.java:77 | draws that never succeed give 0; draws that always succeed give max |
| Tiers.ChanceItem | spigot-plugin/src/main/java/com/hyleria/coeus/available/uhcg/utils/Tier.java:64-73 | `chanceItem` counts with the tier's bad, average or good chance according to the item kind, and never more than max |

## Left out

- The Mongo client, credentials, codec registry and `releaseResources`
  (I/O and foreign calls). The collection is a sequence of documents.
- Threads. A task submitted to the executor is queued and runs only when
  `RunTask` is applied to it. The model does not capture when it runs, or its
  interleaving with cache changes.
- AccountStore.Database.FetchAccount: the asynchronous future is modelled as
  already holding the transaction's outcome. An exception inside the
  executor, seen through `Future.get()`, is that outcome's error.
- The logging of transaction failures. A synchronous failure is only the
  RuntimeException that follows it.
- Guava cache eviction, and the cache's own concurrency safety. The cache is
  an unbounded map.
- Null arguments to the public cache methods: their UUID and username
  parameters are non-null. In the source, `cacheContains(UUID)` answers false
  for null, and the name scans compare with `equals`/`equalsIgnoreCase(null)`,
  which answer false/empty; only `cacheFetch(UUID)` (`getIfPresent`),
  `cacheInvalidate` and, for a null account uuid, `cacheCommit` raise
  NullPointerException.
- AccountStore.Account.FromLoginData: its uuid, name and address parameters
  are non-null. The source accepts null for each and assigns it as given.
- `Account.PreviousAddress` (Account.java:131-144) is not modelled. No code
  in this model builds or reads one. After population, `previous_addresses`
  holds the document's raw values, because Java's list is type-erased.
- The order in which the cache's entry set is streamed. The username scans
  choose any unvisited entry, so their contracts hold for every
  order.
- The unused `callback` parameter of `fetchAccount(UUID, Consumer)`.
- `DocumentBuilder.appendAllFields` is not part of this model.
  `AccountStore.WriteFields` assumes it writes each non-skipped field under its
  `@SerializedName` or field name, and the role by its name.
- The BSON `Document` type is not part of this model. It is a map from
  field names to a small value type.
- The `Role` enum is not part of this model. It is assumed to have three
  constants: PLAYER, DEV and ADMIN.
- The accessors `uuid()`, `username()` and `role()` are plain field reads.
- Bson.ToLower: folds only the ASCII letters. Java's `toLowerCase` and
  `equalsIgnoreCase` also fold other letters, and `toLowerCase()` (used for
  `name_lower` and the username filter) follows the default locale, so under
  a Turkish locale even the ASCII `I` folds to a dotless `ı`.
- Bson.ParseUuid: accepts only the canonical 36-character form.
  `UUID.fromString` also accepts shorter hexadecimal groups.
- AccountStore.Account.SetRole: the queued task captures the uuid when the
  role changes. The source's lambda reads `this.uuid` when the task runs, so
  a uuid changed between submission and execution is not modelled.
- Scoreboard.Truncate: counts Unicode scalar values. Java's `length()` and
  `substring` count UTF-16 code units, so a line of characters outside the
  Basic Multilingual Plane (ten U+1F600, say) keeps fewer characters in Java
  (eight) than in the model (ten).
- AccountStore.Account.PopulateFromDocument: after a failed read, does not
  state which fields the earlier reads already assigned. The body assigns
  them in the source's order.
- The Bukkit `Scoreboard` and `Objective`, the random objective name and the
  display slot. The board is the map of scores, the call trace and the
  display name.
- `System.currentTimeMillis` is a `now` parameter. `TimeUtil.elapsed` is not
  part of this model and is taken as `now - since > duration`.
- `ChatColor` and `Colors.bold` are constant strings. `bold(c)` is taken as
  `c` followed by the bold code.
- Scoreboard.PlayerScoreboard.AnimationTick: times are unbounded integers,
  so a `long` overflow of the elapsed time is not modelled.
- Scoreboard.PlayerScoreboard.Diff: returns the `_adding` and `_deleting`
  sets, and the later loops visit their members in ascending order. This is
  how a `HashSet` of small `Integer`s iterates.
- Tiers.ChanceItem: the RuntimeException after the `switch` cannot be
  reached, because every constant of `Chance` has a case. Null `Integer`
  arguments, and the NullPointerException that unboxing them raises, are
  not modelled.
- The randomness of `Math.chance`. Only the outcome of each draw is modelled,
  as an oracle.
- The `Class` arguments of `MapBuilder.builder`, which carry no behaviour.
  Of the `Map` interface, only `get` and `put` are modelled.
- The rest of the repository: the account manager, chat formatting, the game
  lifecycle, the updater, the plugin bootstrap and the web API. The only part
  of `UHC` modelled is its sidebar update.

## Findings

| source | as written | input that shows it | evidently intended | confidence | as-written member | corrected member |
|---|---|---|---|---|---|---|
| common/src/main/java/com/hyleria/common/mongo/Database.java:237-240 | `fetchAccountSync` returns the private `fetchAccount` as an `Optional<Account>`, but the synchronous branch (line 302) returns a completed `Future`, so the implicit cast at the call site raises ClassCastException on every successful lookup | a UUID that no stored document has, with an empty cache: the lookup succeeds with an empty Optional, and the caller gets ClassCastException | the transaction's own result: the account, or an empty Optional | not executed | AccountStore.Database.FetchAccountSyncAsWritten, AccountStore.UnknownPlayerSyncFetch | AccountStore.Database.FetchAccountSync |
