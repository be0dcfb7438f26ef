# twitch-manager core, modelled in Dafny

twitch-manager is a backend for a Twitch stream overlay. It collects channel
events from three sources:

- Twitch chat (IRC): cheers, hosts, raids, subs and gifted subs;
- Twitch EventSub and legacy WebSub push notifications: new followers;
- periodic polling of the Twitch API: follower and subscriber totals.

It keeps a small persistent state record and pushes every event, and the
whole state, to the overlay's websockets. It also keeps a replay log of
recent events.

This project models the logic of that core. The modules are:

- `Storage` (storage.go): the state record and its sub-records, kept in the
  class `Store`.
  - `Save` trims the follower and subscriber lists to 50 entries, sorts the
    event log newest first and cuts it to 50.
  - The locked read-modify-write steps of the ingestion paths are `Store`
    methods.
  - `Load` maps each kind of file failure to its outcome.
- `Api` (api.go):
  - the socket registry `SubscriptionStore` (subscribe, unsubscribe, and a
    broadcast that stops at the first failing socket);
  - appending a broadcast to the log and saving;
  - the envelope builder and its version stamp;
  - the replay of the log to one socket;
  - the manual "set/clear last follower" endpoint.
- `Irc` (irc.go): PRIVMSG (host announcements and cheers) and USERNOTICE
  (raids, subs, resubs, gifted subs). Each payload is built from the tags,
  and each store update is modelled.
- `EventSub` (eventsub.go):
  - the signed text and signature check;
  - the message-type dispatch;
  - the follow dedupe-then-record;
  - the subscription registration: callback URL, the "already covered" rule
    and the create loop.
- `Webhook` (webhook.go):
  - the WebSub push handler: challenge, then denial reason, then body
    signature, then a follow batch sorted oldest first;
  - the hub callback URL;
  - the lease length and the hub subscription request.
- `Stats` (stats.go): the follower resync, the paged subscriber count that
  skips the broadcaster's own entry, and their sequencing.
- `Demo` (demo.go): demo payloads with parameter defaults, and the demo
  endpoint.
- `Assets` (assets.go): the asset hash store, its `Get`, its sorted `Keys`,
  and the directory walk that refreshes it.
- `Strings`, `Sorting`, `Wrappers`: the pieces of Go's standard library the
  core relies on:
  - `strings.TrimRight` and `strings.Join`;
  - `strconv.ParseInt` and `%d`;
  - Go's byte-wise string order;
  - an in-place sort with `sort.Slice`'s guarantee (sorted and a
    permutation, not stable);
  - an option type.

Outside effects are inputs:

- each HTTP request arrives with its body and the result of decoding it;
- each Twitch API answer is a value;
- SHA-256, HMAC-SHA256 and the host-announcement regular expression are
  function parameters;
- each socket is a function that reports whether its write succeeded;
- each handler reads the clock once, as `now`.

Go's map iteration order is an unspecified choice (`:|`).

Every handler returns the broadcasts it made as `Broadcast` records. A
record holds the type, the payload, the flags, the sockets that took the
message, and the socket that failed. The state after a save is specified by
the relation `SavedFrom(after, before)`, not by a function, because
`sort.Slice` may order events with equal times either way. It says:

- only `seen`, `recent` and the log change;
- the two lists become their first 50 entries;
- the log becomes at most 50 of its events, newest first, with nothing
  dropped that is newer than something kept.

## Model

| member | source | states |
|---|---|---|
| Strings.TrimRight | eventsub.go:179 | the result is a prefix of the input, does not end in the cut character, and only that character was removed |
| Strings.TrimRightIdempotent | webhook.go:120 | trimming twice is trimming once |
| Strings.JoinLength | api.go:112 | a join of n parts holds the parts' lengths plus n - 1 separators |
| Strings.ParseInt | irc.go:184 | succeeds exactly on an optional sign plus at least one decimal digit whose value fits int64; the value is in range and non-negative without a minus |
| Strings.FormatNat | eventsub.go:274 | `%d` of a natural number is a non-empty digit string whose value is the number |
| Strings.ParseFormatRoundTrip | irc.go:184 | parsing what `%d` printed gives the number back, for every int64 |
| Strings.ParseIntRejectsEmpty | irc.go:184-188 | the empty string and a lone sign are syntax errors |
| Strings.ParseIntOutOfRange | irc.go:184-188 | a printed number outside int64 is a range error |
| Strings.LexLeTotal | assets.go:45 | any two strings are ordered one way or the other in Go's order |
| Strings.LexLeTransitive | assets.go:45 | Go's string order is transitive |
| Strings.LexLeAntisymmetric | assets.go:45 | two strings ordered both ways are equal |
| Sorting.SortBy | storage.go:94 | in place: the array ends sorted by the given total preorder and is a permutation of its old contents |
| Sorting.PermutationDistinct | assets.go:41-45 | a permutation of a list without repetitions has none |
| Storage.TrimRecent | storage.go:86-92 | a bounded list after a save is its first min(50, length) entries |
| Storage.PrependTrim | storage.go:86-88 | prepending to a trimmed list and trimming again equals trimming the untrimmed list with the entry prepended |
| Storage.PrefixOfSortedIsTrim | storage.go:94-97 | the first min(50, n) entries of a newest-first permutation of the log are a valid trim of it |
| Storage.TrimTwice | storage.go:94-97 | trimming a trimmed log keeps the same events, and the result is a trim of the original log |
| Storage.TrimAppendTrim | api.go:77-88 | trim, append one event, trim again: a trim of the original log with the event appended |
| Storage.SavedTwice | storage.go:79-97 | two saves in a row are one save |
| Storage.SavedAppendSaved | api.go:77-88 | save, log an event, save: one save of the state with the event logged |
| Storage.SavedFollowedSaved | eventsub.go:154-168 | save, record a follower, save: one save after recording the follower |
| Storage.NewestFirstUnique | storage.go:94 | two newest-first orders of the same events are equal when no two times are equal |
| Storage.SaveIdempotent | storage.go:86-97 | saving a saved state changes nothing except, possibly, the order of events with equal times; with distinct times it changes nothing |
| Storage.BitsRecordedTotals | irc.go:202-213 | a cheer creates the totals map if missing, adds its amount to its own user's total only, and adds only that user's key |
| Storage.StartupFatal | main.go:69-71 | a load failure stops the process unless it is success or a missing file |
| Storage.SortNewestFirst | storage.go:94 | the sorted log is newest first and a permutation of the log |
| Storage.Store.constructor | storage.go:55 | a new record is the zero-valued state |
| Storage.Store.Load | storage.go:57-77 | a missing file is the not-exist outcome, distinct from open, gzip and JSON failures, each with its own message; only a decoded file replaces the state |
| Storage.Store.Save | storage.go:79-97 | the new state is a save of the old one (`SavedFrom`) |
| Storage.Store.AppendEvent | api.go:77-81 | exactly one event is added at the end of the log |
| Storage.Store.RecordBits | irc.go:202-213 | sets last donator and amount, adds the amount to the user's total, and returns the new total |
| Storage.Store.RecordSub | irc.go:278-287 | sets last subscriber and duration and prepends the subscriber to `recent` |
| Storage.Store.RecordFollow | eventsub.go:154-160 | sets last follower, adds one to the count, prepends the login to `seen` |
| Storage.Store.ResyncFollowers | stats.go:75-80 | count becomes the reported total and `seen` the reported names; `last` is kept |
| Storage.Store.SetSubCount | stats.go:150-154 | only the subscriber count changes |
| Storage.Store.SetLastFollower | api.go:191-197 | the empty name clears the last follower, any other name sets it; `seen` and count are kept |
| Assets.LexLeIsTotalPreorder | assets.go:45 | Go's string order is a total preorder, so `sort.Strings` is specified |
| Assets.InsertSorts | assets.go:45 | inserting a new key into an ascending listing gives an ascending listing of the larger set |
| Assets.SortedExists | assets.go:35-48 | every finite key set has an ascending listing |
| Assets.SortedKeys | assets.go:35-48 | the ascending listing of a key set: each key once, in Go's string order |
| Assets.SortsSetUnique | assets.go:45 | a key set has exactly one ascending listing |
| Assets.FirstFailure | assets.go:54-79 | the walk stops at the first visit that reports an error, cannot open its file, or cannot read it |
| Assets.WrittenKeepsKeys | assets.go:76 | the walk never removes a key |
| Assets.WrittenAddsOnlyFiles | assets.go:60-76 | every key the walk adds is a visited non-directory path |
| Assets.WrittenLastVisitWins | assets.go:76 | the hash of a path is the one read on its last visit |
| Assets.AssetVersionStore.constructor | assets.go:22-26 | a new store is empty |
| Assets.AssetVersionStore.Get | assets.go:28-33 | the stored hash, or the empty string for an absent key; nothing changes |
| Assets.AssetVersionStore.Keys | assets.go:35-48 | every stored key exactly once, ascending; nothing changes |
| Assets.AssetVersionStore.UpdateAssetHashes | assets.go:50-79 | the store becomes the walk's writes up to the first failure; an error is returned iff a visit failed, with that visit's message |
| Api.HashesOfEach | api.go:106-109 | one version part per key, the key's hash or the empty string |
| Api.VersionTextShape | api.go:106-112 | the hashed text is the build alone without assets, else the build, "/", and the hashes joined by "/" in key order |
| Api.CompileSocketMessage | api.go:105-128 | payload, replay flag and type are copied; the time is the override exactly; the version is a function of the build and the asset hashes only |
| Api.Logged | api.go:67-81 | a broadcast is logged only when it reached every socket, is live and is to be stored; then one event is appended |
| Api.BroadcastThenSave | api.go:71-88 | a broadcast followed by a save is one save of the state with the broadcast logged |
| Api.SavedOverBits | irc.go:176-222 | a host broadcast's save followed by a cheer's save is one save of the state with both applied |
| Api.StatusErrorCarriesBody | eventsub.go:269-275 | the error for a non-202 answer starts with "unexpected status " and ends with the body when it could be read |
| Api.SubscriptionStore.constructor | api.go:50-55 | a new registry has no sockets |
| Api.SubscriptionStore.SubscribeSocket | api.go:91-96 | the id maps to the new handler, replacing any earlier one; other ids are untouched |
| Api.SubscriptionStore.UnsubscribeSocket | api.go:98-103 | the id is absent, other ids are untouched, and an unknown id changes nothing |
| Api.SubscriptionStore.FanOut | api.go:61-65 | in some order, each socket took the envelope at most once; it either reached them all, or stopped at one that failed and was not delivered |
| Api.SubscriptionStore.SendAllSockets | api.go:57-89 | as `FanOut`; the store changes only when the message reached every socket, is live and is to be stored, and then it is one save of the state with the event appended |
| Api.ReplayEvents | api.go:288-303 | one replay envelope per stored event in log order, carrying the event's type, payload and time; stops right after the first failed write |
| Api.ReplayNewestFirst | api.go:294-298 | after a save, a replay writes times that never increase |
| Api.ReplayAfterSaveGoesBack | api.go:294-298 | an older event logged before a newer one is replayed after it once the log is saved: the replayed times go back |
| Api.ReplayOldestFirst | api.go:288-303 | the corrected replay: one replay envelope per stored event from the oldest end of the log, stopping right after the first failed write |
| Api.ReplayOldestFirstInTimeOrder | api.go:294-298 | over a saved log the corrected replay writes times that never decrease |
| Api.HandleSetLastFollower | api.go:190-208 | the last follower is set or cleared, the state saved and broadcast unlogged, and the answer is 202 whatever the broadcast did |
| Api.PublishAndSave | irc.go:289-300 | publish logged, save, publish the state unlogged; the end state is one save of the state with the event logged |
| Irc.Trailing | irc.go:199 | the last parameter, or empty when there is none |
| Irc.HostFields | irc.go:170-179 | the host payload; a missing viewer count becomes "0" |
| Irc.BitsDisplayName | irc.go:190-194 | the display-name tag when present, else the sender |
| Irc.TagOr | irc.go:236-239 | the first tag when present (even empty), else the fallback tag, else empty; it names a notice's actor (display name, else `login`) and a gift's recipient (irc.go:303-306) |
| Irc.SubFields | irc.go:255-269 | `is_resub` iff msg-id is "resub"; `message` is absent exactly when the trailing text equals the channel parameter |
| Irc.SubGiftFields | irc.go:308-316 | `is_anon` iff msg-id is "anonsubgift"; addressed to the recipient; `total` from `msg-param-months` |
| Irc.MonthsOf | irc.go:273-276 | the parsed int64 month count, or 0 when the tag does not parse |
| Irc.HostOf | irc.go:170 | a host announcement only from `jtv` with a matching trailing text |
| Irc.HandleBits | irc.go:183-227 | an unparsable amount changes nothing and sends nothing; otherwise bits are recorded under the sender, published with the new total (logged), saved, and the state published (not logged) |
| Irc.HandlePrivmsg | irc.go:161-228 | a host broadcast (logged) first when one is announced, then the cheer (logged) and the state (not logged); without a usable cheer the end state is the host broadcast's save, or no change when it was not logged; with one it is one save of both |
| Irc.PublishHost | irc.go:170-179 | no announcement: nothing sent or changed; otherwise one logged host broadcast whose save is the only change, and the bit totals are untouched |
| Irc.CheerAfterHost | irc.go:183-227 | on a store that is a given state or a save of it, an unparsable amount changes nothing; otherwise the cheer (logged) and state (unlogged) broadcasts, and one save of that state with the bits recorded and the cheer logged |
| Irc.HandleUsernotice | irc.go:230-350 | raid: one logged broadcast and no record change; sub/resub: the display name with cumulative months is recorded; gifts: the recipient with `msg-param-months`; each of these is published logged, then the state unlogged; other ids: nothing; a sub without parameters panics before any change |
| Irc.RecordAndPublish | irc.go:278-300 | records the subscriber, publishes the message logged, saves, and publishes the state unlogged; the end state is one save of the state with the sub recorded and the event logged |
| EventSub.SignedText | eventsub.go:92 | message-id, then timestamp, then body, with nothing between |
| EventSub.ExpectedSignature | eventsub.go:91-93 | "sha256=" followed by the HMAC of the signed text |
| EventSub.SignedTextAmbiguous | eventsub.go:92 | any two id/timestamp pairs with the same concatenation carry the same signature |
| EventSub.HandleEventsub | eventsub.go:77-175 | unreadable body: no effect; bad signature: 401 with `http.Error`'s text and trailing newline, before decoding and dispatch; revocation: 204; verification: the challenge; unknown type: no change; a new follower is published (logged), recorded and saved, then the state published unlogged; anything else changes nothing |
| EventSub.RedeliveryIsIgnored | eventsub.go:133-142 | a follow delivered again after being recorded is no longer new |
| EventSub.HookURL | eventsub.go:178-181 | the base URL without trailing slashes followed by "/api/eventsub" |
| EventSub.SubscriptionExists | eventsub.go:219-227 | true iff some listed subscription is enabled or pending, has this callback and this type |
| EventSub.Uncovered | eventsub.go:211-232 | exactly the events no listed subscription covers |
| EventSub.RegisterEventSubHooks | eventsub.go:177-281 | listing failures each give their own error; creates are sent for the uncovered events in order, stopping at the first failure with its error; success iff every create was accepted |
| Webhook.HubSignature | webhook.go:57-59 | "sha256=" followed by the HMAC of the body alone |
| Webhook.ApplyFollowsPrepends | webhook.go:80-101 | a batch prepends its new names to `seen`, adds one to the count per new name, and the last follower is the newest new name, or unchanged |
| Webhook.ApplyFollowsKnows | webhook.go:80-101 | every name of a batch is known afterwards |
| Webhook.AddedAreNew | webhook.go:80-101 | the added names come from the batch, were unknown, and each is added once |
| Webhook.ApplyFollowsIdempotent | webhook.go:80-101 | delivering the same batch again changes nothing |
| Webhook.KnownNamesChangeNothing | webhook.go:83-91 | a batch of known names changes nothing |
| Webhook.ApplyFollowsAsWritten | webhook.go:80-101 | the loop as written: `seen` and count as intended, but the last follower is the batch's final entry whenever anything was added |
| Webhook.AsWrittenLastIsNotNewest | webhook.go:95 | a batch of a new "a" and a known "b" makes "b" the last follower as written, "a" as intended |
| Webhook.HandleWebHookPush | webhook.go:26-115 | a challenge is echoed first; a reason stops; a bad signature gives 401; an accepted follow batch is processed oldest first (a sorted permutation), saved and the state published; anything else changes nothing |
| Webhook.RecordBatch | webhook.go:80-101 | the follower record becomes the batch applied in order, with known names skipped |
| Webhook.HookURL | webhook.go:118-124 | base URL without trailing slashes, then "/api/webhook/" and the type |
| Webhook.TruncDiv | webhook.go:137 | Go's duration division: the quotient truncated toward zero |
| Webhook.LeaseSeconds | webhook.go:137 | the whole seconds in webhook timeout plus the 2 s request timeout, rounded toward zero as Go's duration division, for a negative sum too |
| Webhook.RegisterWebHooks | webhook.go:117-167 | callback, mode, topic, lease and secret of the request; an error iff the answer is not 202, with the status error or the request error |
| Stats.FetchError | stats.go:43-68 | no error exactly for a 200 answer whose body decodes |
| Stats.UpdateFollowers | stats.go:31-83 | on an error the store is untouched; otherwise count becomes the total and `seen` the names in reported order, then saved |
| Stats.Others | stats.go:138-145 | the number of entries that are not the broadcaster's own, at most the page size |
| Stats.Stop | stats.go:93-136 | the first answer that is an error or an empty page; all before it continue the paging |
| Stats.CursorsOf | stats.go:89-147 | the first request has no cursor, each later one the cursor of the page before |
| Stats.CountedOnBound | stats.go:138-145 | the count never exceeds the entries seen |
| Stats.CountPage | stats.go:138-145 | the entries of one page that are not the broadcaster's own |
| Stats.PageThrough | stats.go:93-148 | requests go up to the stopping answer with the right cursors; its error, and the count over the pages before it |
| Stats.UpdateSubscriberCount | stats.go:85-157 | an error on any page leaves the store untouched; otherwise the count is written only after the loop, then saved |
| Stats.UpdateStats | stats.go:16-29 | followers, then subscriber count, then the state broadcast, stopping at the first error, reported under "update statistics module"; a failed subscriber count leaves the followers resynced and saved |
| Demo.FormValue | demo.go:117 | the parameter, or empty when absent |
| Demo.ParamInt | demo.go:116-128 | the fallback when the value is empty or not an integer, else the parsed integer |
| Demo.ParamStr | demo.go:130-137 | the fallback iff the value is empty, else the value unchanged |
| Demo.BitsDemo | demo.go:22-28 | the bits demo's fields, from "Twitch-Manager" |
| Demo.DonationDemo | demo.go:30-35 | the donation demo's fields, named "Twitch-Manager" |
| Demo.FollowDemo | demo.go:37-41 | followed now, from "Twitch-Manager" |
| Demo.ViewersDemo | demo.go:43-53 | the host and raid demo's fields |
| Demo.SubDemo | demo.go:55-64 | a sub demo: not a resub, empty message, total 1 |
| Demo.ResubDemo | demo.go:66-76 | the sub demo's fields, marked as a resub |
| Demo.SubGiftDemo | demo.go:78-87 | anonymous iff the parameter is exactly "true" |
| Demo.DemoPayload | demo.go:21-92 | none exactly for an unknown event; "resub" is sent as "sub", others under their own name; `from` is always "Twitch-Manager" where present |
| Demo.DemoDefaults | demo.go:22-53 | for any parameters, each missing or empty field takes its default: 500 bits, total 1337, the stock cheer message, 5 viewers |
| Demo.SubDemoDefaults | demo.go:55-87 | for any parameters, each missing or empty field takes its default: paid for 1 month, streak 1 (12 for a resub), tier 1000, resub total 12, gift to "Tester", and not anonymous unless `is_anon` is "true" |
| Demo.DemoParamOverrides | demo.go:116-128 | for any parameters, an `amount` or `streak` that reads as an int64 replaces that field's default |
| Demo.HandleDemoAlert | demo.go:14-100 | unknown event: 404 ("Event not found" plus `http.Error`'s newline) and no broadcast; otherwise one broadcast that is never logged, 201 or 500 when a socket failed; the store never changes |

## Left out

- File I/O in `Save` and `Load`:
  - `Save` is only its trimming and sorting. Creating the file, gzip and JSON encoding are not modelled, and neither are the write errors they can return, so every save succeeds.
  - `Load` takes the file's fate as an input.
  - A decoded file replaces the whole record. JSON's merge into existing fields, and a partial decode before an error, are not modelled.
  - Wrapped errors keep only their prefix, not the underlying error's text.
- Concurrency:
  - `modLock`, `saveLock`, the registry's lock and the per-socket lock are not modelled; every locked closure is one call.
  - Goroutines are not modelled.
- Websocket plumbing in `handleUpdateSocket`: the upgrade, the read loop and frame kinds, the keep-alive ping, and the initial state message. Only the replay branch is modelled.
- The IRC connection, `fetchTwitchUsername` and `handleTwitchNotice` are not modelled. The regular expression for host announcements is a parameter.
- Outbound HTTP:
  - The token request, the listing, create and hub requests, and the statistics requests are inputs, not calls.
  - Their request-building failures cannot happen in the model.
- `handleCustomAlert` and `handleCustomEvent` are not modelled; they are outside the modelled core.
- Floating point: the donation `LastAmount`, `demoGetParamFloat`, and the demo donation `amount` field are left out.
- Go's `%x` and SHA-256 are not modelled: `Stamp.sha256Hex` and `HmacHex` are parameters.
- `json.Marshal` failures in `SendAllSockets` are not modelled. A payload is a `Value` tree, not its JSON encoding.
- `now`: each handler reads the clock once, while the source calls `time.Now()` at each use.
- Storage.Store.RecordBits: does not model int64 wrap-around of the running total. The same holds for the follower count in Storage.Store.RecordFollow and the page count in Stats.CountPage; integers are unbounded.
- Stats.UpdateSubscriberCount: requires that some page ends the paging. The source loops for as long as the API returns non-empty pages, so an API that never stops is left out. The same holds for Stats.UpdateStats and Stats.PageThrough.
- Api.ReplayEvents: the socket's write is a pure function of the envelope, so a socket that fails only sometimes is not modelled.
- webhook.go:112 calls `SendAllSockets` with two arguments, which matches no definition in this source. It is modelled as a state broadcast that is not logged, as at every other state broadcast.
- Irc.HandleUsernotice: a raid's broadcast asks for logging (irc.go:253). So a raid, when every socket takes it, is appended to the log and saved, although no record of raids changes.
- Webhook.RecordBatch: records the corrected last follower (the newest follower added), not the batch's final entry that the code as written leaves behind (webhook.go:95). The as-written rule is `Webhook.ApplyFollowsAsWritten`; see "## Findings".
- Webhook.HandleWebHookPush: states the corrected last follower through `Webhook.RecordBatch`, for the same reason.
- Error texts of socket writes, of decoders and of HTTP reads are not modelled. Only the fixed messages the core itself adds are, such as "submit message" and "parsing message". Replies written with `http.Error` end in the newline it appends.
- Api.SubscriptionStore.SendAllSockets: the returned error is reported through the `failed` field, not as text. Handlers that wrap it give the full text ("send to sockets: submit message").

## Findings

| source | as written | input that shows it | evidently intended | confidence | as-written member | corrected member |
|---|---|---|---|---|---|---|
| webhook.go:80-101 | `Last` is set to `&f.FromName`, the address of the range variable. Before Go 1.22 all iterations share that variable, so after the loop it names the batch's final entry, even when that entry was a known, skipped follower | a batch holding the new follower "a", then the already seen "b", in follow order | `Last` names the newest follower actually added, here "a" | medium (depends on the module's Go version being before 1.22); not executed | Webhook.ApplyFollowsAsWritten, Webhook.AsWrittenLastIsNotNewest | Webhook.ApplyFollows, Webhook.ApplyFollowsPrepends |
| api.go:294-298 | A replay walks the log in stored order. Every logged broadcast is followed by a save, and a save sorts the log newest first (storage.go:94). So a replay sends the newest event first, and the replayed `time` values go back | a follow logged at time 1, then one at time 2, then a replay request | replayed `time` values never decrease, so a client can play the log back in the order the events happened | low (a client may reorder by `time`); not executed | Api.ReplayEvents, Api.ReplayNewestFirst, Api.ReplayAfterSaveGoesBack | Api.ReplayOldestFirst, Api.ReplayOldestFirstInTimeOrder |
