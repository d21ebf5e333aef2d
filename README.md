# Eavesdropper backend: metered transcription, modelled in Dafny

The backend takes recorded audio chunks, joins them into one file and has a
generative engine transcribe it. Every user has a balance of free
transcription seconds (1800 at sign-up). Once that balance runs out, the user
needs an active provider (Stripe) subscription whose tier caps the seconds
billed per cycle. This project models the rules behind that accounting:

- the entitlement decision and the handler steps around it;
- the free balance and the billing-cycle usage report;
- the tier table and the plan listing;
- chunk ordering, download and joining;
- selecting and cancelling provider subscriptions;
- the document-store operations the accounting reads and writes, modelled as in-memory stores;
- the request-level rules: token reading, ownership, CORS, integer parameters and transcript access.

Each Go source file becomes one Dafny module:

| module | Go source |
|---|---|
| `Errors` | `errs/errors.go`, plus the `Result`, `Option` and `Outcome` wrappers |
| `Resources` | the `dtos` records |
| `Configurations` | `configurations/configurations.go`, `configurations/subscriptions.go` |
| `StoragePaths` | `services/data/storage/storage.go` |
| `Audio` | `services/audio/audio.go`; `Sorting` holds the key sort it uses |
| `StripeSubscriptions` | `services/stripe/subscriptions.go` |
| `UserOperations`, `SubscriptionOperations`, `TranscriptOperations`, `WhitelistOperations` | the four files under `services/data/firestore/operations` |
| `Users` | `services/users/user.go` |
| `Whitelist` | `services/whitelist/whitelist.go` |
| `Plans` | `services/subscriptions/plans.go` |
| `Transcribe` | `services/transcribe/transcribe.go` |
| `ApiErrors`, `Middlewares`, `Handlers` | `api/error/error.go`, `api/middlewares/middlewares.go`, `api/handlers/transcripts.go` and `api/handlers/utils.go` |

**Stores and state.** Each store is a class with a `seq` or `map` field, and its operations are methods that change it:

- users: a sequence of documents;
- subscriptions: a map keyed by (user, provider subscription id);
- transcripts: one sequence over all users, each record tagged with its owner;
- whitelists: a map from (owner, transcript) to that transcript's entries.

**Pure rules.** Pure rules are functions. The entitlement decision is `Transcribe.Decide`, applied to the store contents by `Transcribe.Allowed`.

**Loops.** Each Go loop is a method with invariants, proved against a specification function. Examples: the usage fold, the plan listing, the chunk downloads, the subscription selection and the status poll.

**Outside calls are parameters.** The clock (`now`), fresh document ids, the provider's list and cancel calls, the identity provider's token checks, the object store, ffmpeg and ffprobe, and the generative engine are all passed in. Time is an integer count of nanoseconds since the epoch.

## Model

| member | source | states |
|---|---|---|
| `Configurations.IsSupportedAduioFormat` | configurations/configurations.go:31-38 | a format is supported exactly when it is `wav`, compared case-sensitively |
| `Configurations.PriceIdsDistinct` | configurations/subscriptions.go:27-52 | within each environment, the non-empty price ids of different tiers differ |
| `Configurations.BuildIndexes` | configurations/subscriptions.go:60-72 | the loop over any table with distinct price ids builds exactly the test and production reverse indexes, whatever order it visits the tiers in |
| `Configurations.BuildReverseMaps` | configurations/subscriptions.go:60-72 | the two reverse maps hold exactly the non-empty test and production price ids, each mapped to its own tier, whatever order the table is walked in |
| `Configurations.ReverseIndexExact` | configurations/subscriptions.go:60-72 | a price id is in a reverse map iff it is non-empty and some tier has it; the tier it maps to has that price id |
| `Configurations.GetPriceID` | configurations/subscriptions.go:80-94 | succeeds iff the tier is in the table and the mode is development or production; the result is the tier's price for that mode |
| `Configurations.GetSubscriptionTier` | configurations/subscriptions.go:97-115 | succeeds iff the mode is known and the price id is a non-empty price of some tier in that mode; the tier returned has that price |
| `Configurations.TierPriceRoundTrip` | configurations/subscriptions.go:80-115 | for every paid tier in both known modes, looking up the tier of the tier's price id gives the tier back |
| `Configurations.FreeTrialPriceIsUnknown` | configurations/subscriptions.go:109-112 | the free trial's empty price id is not a known price |
| `Configurations.GetPlanName` | configurations/subscriptions.go:118-124 | the four plan names for tiers 0..3, an error outside the table |
| `Configurations.GetMonthlyAudioSeconds` | configurations/subscriptions.go:136-142 | the caps 0, 18000, 3600, 3600 for tiers 0..3, an error outside the table |
| `Configurations.GetPlanNameByPriceID` | configurations/subscriptions.go:127-133 | the tier lookup's error, or the name of the tier the price id maps to |
| `Configurations.GetMonthlyAudioSecondsByPriceID` | configurations/subscriptions.go:145-151 | the tier lookup's error, or the cap of the tier the price id maps to |
| `Configurations.TierString` | configurations/subscriptions.go:154-159 | the plan name for a tier in the table, `UnknownTier(n)` otherwise |
| `StoragePaths.FinalAudioUploadPath` | services/data/storage/storage.go:40-42 | `outputs/<user>/<session>/final.wav`; its shape, injectivity and distance from manifest paths are the lemmas below |
| `StoragePaths.FinalPathShape` | services/data/storage/storage.go:40-42 | every final-asset path starts with `outputs/` and ends with `/final.wav` |
| `StoragePaths.FinalPathInjective` | services/data/storage/storage.go:40-42 | for slash-free user and session ids, equal final paths mean equal ids |
| `StoragePaths.FinalPathIsNotManifestPath` | services/data/storage/storage.go:13-18 | no final-asset path is a manifest path |
| `Sorting.SortByKey` | services/audio/audio.go:42-46 | the sorted copy is a permutation of the input, non-decreasing by the key |
| `Audio.Base` | services/audio/audio.go:50 | the base name of a path is never empty |
| `Audio.LastSegmentStart` | services/audio/audio.go:50 | the last segment starts just after a slash (or at 0) and holds no slash |
| `Audio.BaseOfJoin` | services/audio/audio.go:50 | the base of `dir/name` is `name` for a slash-free name |
| `Audio.ChunkIndexOfNumberedChunk` | services/audio/audio.go:129-137 | `chunk-<digits>.webm` in any directory has the index its digits spell, leading zeros included |
| `Audio.ChunkIndexWithoutDigits` | services/audio/audio.go:129-137 | every chunk whose trimmed name holds no digit has index 0 |
| `Audio.ScanWithoutNumber` | services/audio/audio.go:129-137 | text with no digit after the white space and the sign scans as 0 |
| `Audio.ScanDecimal` | services/audio/audio.go:129-137 | the scanned value is a 64-bit integer, and non-zero only when digits follow the white space and the sign |
| `Audio.ChunkIndex` | services/audio/audio.go:129-137 | every chunk index is a 64-bit integer; see the two lemmas above for its value |
| `Audio.SortChunks` | services/audio/audio.go:42-46 | the processing order is a permutation of the manifest's chunks, non-decreasing by chunk index |
| `Audio.DownloadAll` | services/audio/audio.go:48-56 | the download succeeds iff every chunk is in the store, with one local file per chunk |
| `Audio.FirstMissing` | services/audio/audio.go:48-56 | the position of the first chunk missing from the store |
| `Audio.DownloadFailsAtFirstMissing` | services/audio/audio.go:51-54 | the download fails with the error naming the first missing chunk |
| `Audio.DownloadChunks` | services/audio/audio.go:48-56 | the loop computes the specification, and fetches exactly the chunks up to and including the first missing one |
| `Audio.JoinChunks` | services/audio/audio.go:59-82 | the joined file is the local files concatenated in order |
| `Audio.JoinedIsStoredConcat` | services/audio/audio.go:48-82 | when no two chunks share a base name, the joined bytes are the stored chunks concatenated in processing order |
| `Audio.DownloadedLocalFile` | services/audio/audio.go:50 | chunk i is written to `directory/base(chunk i)` |
| `Audio.CeilSeconds` | services/audio/audio.go:126 | the billed seconds are the least whole number at or above the duration |
| `Audio.CeilExamples` | services/audio/audio.go:126 | 4.2 s bills as 5 and 5.0 s bills as 5 |
| `Audio.ProcessAudioChunks` | services/audio/audio.go:20-111 | manifest error and empty manifest first, with nothing fetched; then sort, fail-fast download, join, transcode, probe and upload, each failure with its message; on success the final path from the manifest's ids, the rounded-up duration, and the upload in the store |
| `StripeSubscriptions.StatusOf` | services/stripe/subscriptions.go:42-50 | id and status from the subscription; price and cycle bounds from its first item |
| `StripeSubscriptions.FirstQualifying` | services/stripe/subscriptions.go:30-51 | the first listed subscription that is active and has an item |
| `StripeSubscriptions.SelectSubscription` | services/stripe/subscriptions.go:23-58 | the first qualifying subscription's status, else the iterator's error, else none; proved by the lemma below |
| `StripeSubscriptions.SelectionIsFirstMatch` | services/stripe/subscriptions.go:23-58 | a status is returned iff some subscription qualifies, and it is the first one's; an iterator error surfaces iff none qualifies |
| `StripeSubscriptions.CheckUserSubscription` | services/stripe/subscriptions.go:23-58 | the loop returns the selection specified above |
| `StripeSubscriptions.ToCancelExact` | services/stripe/subscriptions.go:69-93 | a subscription is cancelled iff it is listed and not ignored |
| `StripeSubscriptions.AllFailuresReported` | services/stripe/subscriptions.go:80-93 | one error per failed cancellation, none for the others |
| `StripeSubscriptions.CancelUserSubsctiptions` | services/stripe/subscriptions.go:60-101 | cancels exactly the non-ignored listed subscriptions and carries on after failures; returns their errors, with the iterator's error last |
| `SubscriptionOperations.NewRecord` | services/data/firestore/operations/subscriptions.go:31-39 | a first save stores the fresh id, user, provider subscription, customer and plan |
| `SubscriptionOperations.SubscriptionStore.SaveStripeSubscription` | services/data/firestore/operations/subscriptions.go:17-43 | an existing key fails with "Subscription already created" and changes nothing; otherwise the record is inserted |
| `SubscriptionOperations.SubscriptionStore.GetSubscription` | services/data/firestore/operations/subscriptions.go:72-86 | the stored record, or a not-found error for an absent one |
| `SubscriptionOperations.SecondSaveKeepsFirst` | services/data/firestore/operations/subscriptions.go:23-39 | a second save of the same key changes nothing, and the first record is the one stored |
| `UserOperations.IndexOfUnique` | services/data/firestore/operations/users.go:30-41 | under unique ids, the lookup finds the one document with that id |
| `UserOperations.UserStore.CreateUser` | services/data/firestore/operations/users.go:18-21 | the user is stored under its id; an existing id fails and changes nothing |
| `UserOperations.UserStore.UpdateUser` | services/data/firestore/operations/users.go:23-26 | the whole stored record is replaced by the given one, or created |
| `UserOperations.UserStore.GetUser` | services/data/firestore/operations/users.go:30-41 | the document stored under the id, or not found |
| `UserOperations.UserStore.HandleIsAvailable` | services/data/firestore/operations/users.go:43-59 | true exactly when no stored user has that handle |
| `UserOperations.UserStore.GetUserWithStripe` | services/data/firestore/operations/users.go:61-80 | no match is "No user found.", several is "Multiple users found…", exactly one is that user |
| `TranscriptOperations.OwnedBy` | services/data/firestore/collections/transcripts.go:14-20 | the records of one owner, and only those |
| `TranscriptOperations.InWindow` | services/data/firestore/operations/transcripts.go:125-128 | exactly the records with start <= CreatedAt <= end |
| `TranscriptOperations.Page` | services/data/firestore/operations/transcripts.go:74-83 | skips pageI*pageSize records only when pageI > 0 and caps at pageSize only when pageSize > 0; a negative offset is refused |
| `TranscriptOperations.RecordOnItsPage` | services/data/firestore/operations/transcripts.go:74-83 | record k is at position k mod pageSize of page k div pageSize |
| `TranscriptOperations.DefaultTitle` | services/data/firestore/operations/transcripts.go:49-53 | `Transcript #` followed by a non-empty run of digits |
| `TranscriptOperations.DefaultTitlesDistinct` | services/data/firestore/operations/transcripts.go:49-53 | different counts give different default titles |
| `TranscriptOperations.NewTranscript` | services/data/firestore/operations/transcripts.go:55-66 | the new record carries the fresh id, the default title, the given seconds and tokens, the time, and is not private |
| `TranscriptOperations.TranscriptStore.CountUserTranscripts` | services/data/firestore/operations/transcripts.go:17-36 | the number of the user's records |
| `TranscriptOperations.TranscriptStore.SaveTranscript` | services/data/firestore/operations/transcripts.go:38-71 | a failed count creates nothing; otherwise the record titled after the count is appended |
| `TranscriptOperations.TranscriptStore.GetUserTranscripts` | services/data/firestore/operations/transcripts.go:73-106 | one page of the user's records in newest-first order |
| `TranscriptOperations.TranscriptStore.GetTranscripts` | services/data/firestore/operations/transcripts.go:123-148 | exactly the user's records in the inclusive window, newest first |
| `TranscriptOperations.TranscriptStore.GetUserTranscript` | services/data/firestore/operations/transcripts.go:108-121 | the user's record with that id, or a wrapped not-found error |
| `TranscriptOperations.TranscriptStore.UpdateTranscriptPrivacy` | services/data/firestore/operations/transcripts.go:150-158 | only IsPrivate of that record changes; a missing record fails and changes nothing |
| `TranscriptOperations.TranscriptStore.UpdateTranscriptTitle` | services/data/firestore/operations/transcripts.go:160-168 | only Tittle of that record changes; a missing record fails and changes nothing |
| `TranscriptOperations.TranscriptStore.GetTranscriptByID` | services/data/firestore/operations/transcripts.go:170-190 | "transcript not found" iff no record has the id; otherwise a record with that id and its owner |
| `WhitelistOperations.FindUserByHandle` | services/data/firestore/operations/transcriptWhitelistedUsers.go:156-168 | none iff no user has that handle; otherwise a user with it whose document id is the least among them |
| `WhitelistOperations.HandleLookupIgnoresStoreOrder` | services/data/firestore/operations/transcriptWhitelistedUsers.go:156-168 | the user a handle resolves to does not depend on the order the users are stored in |
| `WhitelistOperations.FindUserByEmail` | services/data/firestore/operations/transcriptWhitelistedUsers.go:170-182 | none iff no user has that email; otherwise a user with it whose document id is the least among them |
| `WhitelistOperations.Resolve` | services/data/firestore/operations/transcriptWhitelistedUsers.go:33-49 | a non-empty handle takes precedence over the email; neither given, or no such user, is an error |
| `WhitelistOperations.NewEntries` | services/data/firestore/operations/transcriptWhitelistedUsers.go:26-58 | the batch succeeds iff every request resolves, and then holds one entry per request in order, with id `uuid(i)`, creation time `now(i)` and the user request i resolves to |
| `WhitelistOperations.NewEntriesStopsAt` | services/data/firestore/operations/transcriptWhitelistedUsers.go:43-49 | the first unresolvable request decides the error |
| `WhitelistOperations.HandleIdsExact` | services/data/firestore/operations/transcriptWhitelistedUsers.go:74-95 | a removal's handles resolve to exactly the users found by them; unknown handles are skipped |
| `WhitelistOperations.EmailIdsExact` | services/data/firestore/operations/transcriptWhitelistedUsers.go:96-110 | a removal's emails resolve to exactly the users found by them; unknown emails are skipped |
| `WhitelistOperations.Without` | services/data/firestore/operations/transcriptWhitelistedUsers.go:111-123 | exactly the entries whose user is not removed |
| `WhitelistOperations.RemovedUsersAreNotListed` | services/data/firestore/operations/transcriptWhitelistedUsers.go:64-127 | after a removal no entry of a removed user is left |
| `WhitelistOperations.AddedUsersAreListed` | services/data/firestore/operations/transcriptWhitelistedUsers.go:20-62 | after an add every added user is listed |
| `WhitelistOperations.NewestComesFirst` | services/data/firestore/operations/transcriptWhitelistedUsers.go:129-154 | an entry newer than all others heads the newest-first listing, and the rest is a newest-first listing of the others |
| `WhitelistOperations.NewerBatchListedFirst` | services/data/firestore/operations/transcriptWhitelistedUsers.go:129-154 | a batch stamped by a forward-moving clock and newer than every stored entry opens the listing, last entry first |
| `WhitelistOperations.ListingAfterAdd` | services/data/firestore/operations/transcriptWhitelistedUsers.go:20-62 | after an add whose clock moves forward past every stored entry, the listing opens with the new entries, last request first |
| `WhitelistOperations.WhitelistStore.AddTranscriptWhitelistedUsers` | services/data/firestore/operations/transcriptWhitelistedUsers.go:20-62 | all or nothing: any resolution error, or an empty batch, changes nothing; otherwise exactly the new entries, stamped `now(i)`, join the transcript's list |
| `WhitelistOperations.WhitelistStore.RemoveTranscriptWhitelistedUsers` | services/data/firestore/operations/transcriptWhitelistedUsers.go:64-127 | every entry of a resolved user is deleted; nothing to delete is the empty-batch error |
| `WhitelistOperations.WhitelistStore.GetTranscriptWhitelistedUsers` | services/data/firestore/operations/transcriptWhitelistedUsers.go:129-154 | a permutation of the transcript's entries ordered by creation time, newest first |
| `WhitelistOperations.WhitelistStore.IsUserWhitelistedForTranscript` | services/data/firestore/operations/transcriptWhitelistedUsers.go:184-201 | true exactly when some entry of that transcript names the user |
| `Whitelist.Requested` | services/whitelist/whitelist.go:14-17 | a request entry copies the handle and email and nothing else |
| `Whitelist.BuildWhitelistedUsers` | services/whitelist/whitelist.go:12-19 | one request entry per requested user, in order |
| `Whitelist.AddUsersToTranscriptWhitelist` | services/whitelist/whitelist.go:11-22 | all or nothing: a resolution error or an empty request changes nothing; otherwise one entry per requested user, stamped `now(i)`, joins the transcript's list |
| `Whitelist.RemoveUsersFromTranscriptWhitelist` | services/whitelist/whitelist.go:24-26 | the store's removal applied to the handles and emails unchanged |
| `Whitelist.ResponseFor` | services/whitelist/whitelist.go:37-52 | id and date from the entry, handle and email from the referenced user's current record; a missing user is an error |
| `Whitelist.Responses` | services/whitelist/whitelist.go:34-53 | one response per entry in order, or an error and no partial list |
| `Whitelist.FirstFailure` | services/whitelist/whitelist.go:37-46 | the first entry whose user is missing decides the error |
| `Whitelist.GetTranscriptWhitelist` | services/whitelist/whitelist.go:28-59 | the responses, in order, for a newest-first permutation of the transcript's entries; a missing user is an error |
| `Whitelist.IsUserWhitelistedForTranscript` | services/whitelist/whitelist.go:61-63 | the store's membership answer |
| `Users.NewUserRecord` | services/users/user.go:21-33 | a new user has 1800 free seconds, no provider customer and no handle |
| `Users.AddUser` | services/users/user.go:21-33 | creates the new record; an existing id fails and changes nothing; balances stay non-negative |
| `Users.CustomerName` | services/users/user.go:44 | first name, a space, last name |
| `Users.AddStripe` | services/users/user.go:35-58 | a missing user or a provider error changes nothing; otherwise only the customer id is set, and it is returned |
| `Users.AddSubscriptionToUser` | services/users/user.go:60-78 | the owner is the one user with the customer id; zero or several such users fail and change nothing; otherwise the subscription is saved for that user |
| `Users.DecrementedBalance` | services/users/user.go:87 | the new balance is never negative: the old balance minus the consumed seconds, or 0 if that is below 0 |
| `Users.DecrementFreeTier` | services/users/user.go:80-90 | only that user's balance changes, to the clamped value; balances stay non-negative |
| `Users.MergeProfile` | services/users/user.go:114-128 | the handle is set once; names and theme change only when supplied; id, email, customer, balance and creation time never change |
| `Users.MergeIdempotent` | services/users/user.go:114-128 | merging the same update twice changes nothing more, and a handle once set survives later merges |
| `Users.UpdateUser` | services/users/user.go:100-132 | a missing user fails and changes nothing; otherwise the merged record replaces it; balances stay non-negative |
| `Users.GetUserStripeSub` | services/users/user.go:134-148 | a missing user is an error; no provider customer is no subscription and no error; otherwise the provider's selection |
| `Users.WindowFor` | services/users/user.go:157-178 | without a subscription: "Free Tier", from the epoch to 30 days ahead, cap 1800, no renewal; with one: name and cap from its price, and the window and renewal from its cycle |
| `Users.SumPermutation` | services/users/user.go:197-203 | the sums do not depend on the order of the records |
| `Users.SumShape` | services/users/user.go:188-203 | the count is the number of records and paid is total minus free |
| `Users.SumBounds` | services/users/user.go:197-203 | when each record's free seconds are between 0 and its total, the free and paid sums are between 0 and the total sum |
| `Users.UsageOrderIndependent` | services/users/user.go:181-203 | the usage report is the same whatever order the store returns the records in |
| `Users.GetCurrentBillingCycleUsage` | services/users/user.go:150-206 | the loop computes the window's plan and cap and the sums over the user's records in the window |
| `Plans.PlanAt` | services/subscriptions/plans.go:12-38 | a plan exists iff the tier's price lookup succeeds; its id is its position, and its price, name and cap come from the table; free seconds are 1800 on the free trial only |
| `Plans.Collect` | services/subscriptions/plans.go:11-42 | all plans or the first error, never a partial list |
| `Plans.CollectFailsAt` | services/subscriptions/plans.go:13-25 | the first failing tier decides the error |
| `Plans.ListPlans` | services/subscriptions/plans.go:8-43 | the loop computes the listing specified above |
| `Plans.GetSubscriptionPlans` | services/subscriptions/plans.go:8-43 | the listing of the configured tier list |
| `Plans.ConfiguredListing` | services/subscriptions/plans.go:8-43 | in a known mode, four plans with ids 0..3 in tier order and values from the table; otherwise the unknown-environment error |
| `Transcribe.Decide` | services/transcribe/transcribe.go:18-84 | guard by guard: user lookup, free cover, no customer, no or expired subscription; an allowed request consumes min(balance, audio) free seconds; refusals consume none |
| `Transcribe.PaidPath` | services/transcribe/transcribe.go:57-83 | over the cap (strictly greater) is refused and still names the local record; at or under the cap is allowed and consumes the whole balance |
| `Transcribe.LookupFailuresRefuse` | services/transcribe/transcribe.go:57-76 | a failed local-record, tier or usage lookup refuses with that error |
| `Transcribe.AllowedSplit` | services/transcribe/transcribe.go:33-35 | with a non-negative balance, an allowed request splits the audio into free and paid parts that are both non-negative, and the decrement then lands exactly on balance minus free |
| `Transcribe.SelectedIsActive` | services/transcribe/transcribe.go:47-55 | the provider selection only ever returns an active subscription |
| `Transcribe.Allowed` | services/transcribe/transcribe.go:18-84 | the entitlement decision applied to the user, the first qualifying provider subscription, the local record and the cycle usage read from the stores |
| `Transcribe.TranscriptionAllowed` | services/transcribe/transcribe.go:18-84 | the lookups in order lead to the decision above over the stores' contents |
| `Transcribe.AwaitActiveFile` | services/transcribe/transcribe.go:126-154 | at most 10 lookups; success at the first active state; a lookup error stops at once; after 10 a failed file is an upload error and anything else a timeout |
| `Middlewares.GetAuthToken` | api/middlewares/middlewares.go:17-28 | an empty header, or one not starting with `Bearer `, is an error; otherwise the token is the rest, possibly empty |
| `Middlewares.AuthTokenRoundTrip` | api/middlewares/middlewares.go:23-27 | any token behind the prefix is read back as itself |
| `Middlewares.ValidateToken` | api/middlewares/middlewares.go:30-49 | the request passes iff the header is well formed and the provider accepts the token |
| `Middlewares.ValidateOwnership` | api/middlewares/middlewares.go:51-90 | checks in order: 400 missing id, 401 bad header, 500 lookup failure, 401 unverified, 401 mismatch; passes iff the caller is the verified owner |
| `Middlewares.CorsHeaders` | api/middlewares/middlewares.go:125-144 | the six CORS headers, echoing the request's header list or the default one |
| `Middlewares.CorsMiddleware` | api/middlewares/middlewares.go:120-154 | the CORS headers are set iff the origin is allowlisted; OPTIONS gets 204 and is never passed on; everything else is passed on |
| `Middlewares.AllowlistIsExact` | api/middlewares/middlewares.go:125-130 | example spellings close to an allowed origin (trailing slash, other port, upper case, empty) are not allowed; the general rule is `CorsMiddleware`'s |
| `Handlers.TranscriptToResponse` | api/handlers/utils.go:48-58 | copies id, session, title, content, seconds and creation time |
| `Handlers.ResponseOmitsTokensAndPrivacy` | api/handlers/utils.go:48-58 | the token counts and the privacy flag do not reach the response |
| `Handlers.Atoi` | api/handlers/utils.go:20 | an accepted value is an optional sign and at least one digit, within 64 bits |
| `Handlers.AtoiRoundTrip` | api/handlers/utils.go:20 | every 64-bit integer in decimal reads back as itself |
| `Handlers.AtoiRejects` | api/handlers/utils.go:20 | the empty string and a lone sign are not numbers |
| `Handlers.ParseIntParam` | api/handlers/utils.go:11-45 | empty is (0, false) with an error only if mandatory; a non-integer is (0, false) with the INVALID error; an integer is (n, true) |
| `Handlers.ParsePathValueToInt` | api/handlers/utils.go:11-27 | the path-parameter instance of the rule above |
| `Handlers.ParseQueryParamToInt` | api/handlers/utils.go:29-45 | the query-parameter instance of the rule above |
| `Handlers.BearerToken` | api/handlers/transcripts.go:128-131 | `Bearer ` is stripped only from a longer header that starts with it; otherwise the header is the token |
| `Handlers.CallerID` | api/handlers/transcripts.go:125-137 | no header or a rejected token makes the caller anonymous |
| `Handlers.TokenReadingsDiffer` | api/handlers/transcripts.go:128-131 | the handler's token reading accepts headers the middleware refuses |
| `Handlers.AccessReply` | api/handlers/transcripts.go:116-178 | a transcript is returned iff it is public, or the signed-in caller owns it or is whitelisted; otherwise 401 anonymous, 500 whitelist error, or 403 |
| `Handlers.GetTranscript` | api/handlers/transcripts.go:116-178 | 400 for a missing id, 404 iff no record has the id; otherwise the reply the access rule gives for the stored transcript, its owner and the whitelist's answer |
| `Handlers.PrivacyFlagAsWritten` | api/handlers/transcripts.go:195-202 | the flag as the code computes it: `isPrivate` is the truth of `visible`; see Findings |
| `Handlers.VisibleTrueHidesTranscript` | api/handlers/transcripts.go:195-202 | as written, `visible=true` sets IsPrivate, and signed-out callers are then refused |
| `Handlers.PrivacyFlag` | api/handlers/transcripts.go:195-202 | private exactly when not asked to be visible |
| `Handlers.VisibleMeansReadableByAnyone` | api/handlers/transcripts.go:180-214 | a transcript made visible is returned to any caller; one made invisible is refused to signed-out callers |
| `Handlers.UpdateTranscriptVisibility` | api/handlers/transcripts.go:180-214 | 400 for a missing user, transcript or parameter with no change; 500 for a missing record; otherwise only the privacy flag changes and the reply is 200 |
| `Handlers.UpdateTranscriptTitle` | api/handlers/transcripts.go:216-249 | 400 for a missing user, transcript or `tittle` parameter; 500 for a missing record; otherwise only the title changes and the reply is 200 |
| `Handlers.RefusalReply` | api/handlers/transcripts.go:61-74 | the cap maps to 403 with its error id; every other refusal maps to 500 |
| `Handlers.Admit` | api/handlers/transcripts.go:25-59 | the refusal for the first failing check: missing context token 500, unknown user 401, missing session id 400, scratch directory or audio failure 500; no refusal exactly when the audio is processed, which happens only after the earlier checks pass |
| `Handlers.Transcribe` | api/handlers/transcripts.go:25-114 | context token, user, session id, scratch directory and audio are checked in order with nothing changed; a refusal changes nothing; the engine is called iff the request is allowed |
| `Handlers.Decide` | api/handlers/transcripts.go:61-109 | the engine is called iff the entitlement rule allows the request; a refusal maps to its reply and changes nothing; an allowed request is charged |
| `Handlers.TranscribeAndCharge` | api/handlers/transcripts.go:76-109 | an engine or save failure is 500 and changes nothing; a successful save appends the record, then lowers the balance by the consumed free seconds |

## Left out

- Network, disk and SDK calls are parameters or inputs. This covers the identity provider, the object store, ffmpeg and ffprobe, the generative engine and the provider's customer, checkout, portal and webhook calls. Their own behaviour is not modelled.
- `LoadManifest` is not modelled. `Audio.ProcessAudioChunks` takes its result as a parameter.
- `getAudioDuration` parses a floating-point number, which is not modelled. The probed duration is an exact fraction, and `Audio.CeilSeconds` rounds it up.
- Failures to create, open, copy into or close the joined file are not modelled; the model's joining cannot fail. `filepath.Join` path cleaning is not modelled either: the local path is `directory/base`.
- Audio.JoinedIsStoredConcat requires distinct chunk base names. Chunks in different directories with the same base name overwrite each other's scratch file in Go too, and the model does not describe the joined bytes in that case.
- The engine's upload, prompt and generate calls and `time.Sleep` are not modelled. The engine is a function from the audio path to text and token counts. `awaitActiveFile` is modelled on its own. Its error is only logged by its caller, so it has no effect on the handler.
- The decrement runs sequentially after the save. Go starts it in the background, and races between concurrent requests on one balance are not modelled. The cancellation started in the background from the webhook handler, and Firestore transaction and batch atomicity, are not modelled either; store operations are atomic.
- Users.DecrementFreeTier: the Go code passes the balance through a `float64` and `math.Max`. That is exact below 2^53 seconds, and the model works on unbounded integers.
- Integer sums in the usage fold and `pageI * pageSize` are unbounded here. Go's `int` would wrap around beyond 2^63.
- Store error texts other than the ones the code builds itself are stand-ins. Examples are not-found, already-exists and the empty-batch commit. Only whether an error occurs, and which wrapper the code puts around it, is modelled.
- Transcripts.TranscriptStore.GetTranscriptByID: when two users own records with the same id, the store may return either of them. The model promises one record with that id and its owner, not which one.
- Firestore's order among records with equal `CreatedAt` is not modelled. The queries promise only newest-first order.
- Fresh document ids are parameters, and their uniqueness is assumed where the code relies on it.
- The clock `time.Now` is a parameter `now`, read once per whitelist request. `WhitelistOperations.ListingAfterAdd` assumes it moves forward and reads later than every stored entry; a clock that stands still or goes back leaves the new entries' place in the listing open.
- Which user Firestore returns for a `Limit(1)` query without an order is modelled as the one with the least document id. Firestore orders such a query by document id, so this is the user it returns.
- JSON encoding and decoding are not modelled, and neither are the handlers that only forward to a service and encode its result. This covers users, whitelist, subscriptions and stripe.
- The `nil` local-subscription branch of `TranscriptionAllowed` is dead code, so it is not modelled. `GetSubscription` reports a missing record as an error.
- Store reads do not fail for transient reasons here. So the error branch after `TranscriptionAllowed` reads the usage report cannot be reached in the model: that read repeats lookups that have just succeeded.
- The past-due branch of `TranscriptionAllowed` is modelled. `Transcribe.SelectedIsActive` shows it cannot be reached through `CheckUserSubscription`.
- Handlers.UpdateTranscriptVisibility uses the corrected privacy flag `Handlers.PrivacyFlag`. The flag as the code computes it is `Handlers.PrivacyFlagAsWritten`; see Findings.
- Handlers.AtoiRejects: values outside the 64-bit range are rejected by `Handlers.Atoi`, but no concrete out-of-range string is exhibited.

## Findings

| source | as written | input that shows it | evidently intended | confidence | as-written member | corrected member |
|---|---|---|---|---|---|---|
| api/handlers/transcripts.go:195-202 | the `visible` query parameter's truth is passed on as `isPrivate` | `PUT /users/u/transcripts/t/visibility?visible=true` makes the transcript private, and a signed-out reader then gets 401 | a transcript asked to be visible becomes public (the route is named visibility, and the error says "Failed to make transcript public") | medium, not executed | `Handlers.VisibleTrueHidesTranscript` | `Handlers.VisibleMeansReadableByAnyone` |
