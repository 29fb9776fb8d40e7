# Verified cores of an LLM gateway

Dafny models of the parts of the gateway where a mistake is hard to see by reading one function: a
reference-counted lock protocol, list reconciliation, a sliding-window limiter, a retry loop with
money in it, index-keyed key lists, price comparison, body storage, a media scanner, a three-copy commit,
session-based step-up verification, a struct cache and usage re-billing. Everything is stated for all
inputs, all runs or all interleavings. Code the gateway only calls (upstream requests, database, clock,
JSON, regular expressions) appears as parameters with arbitrary answers.

| file | what it models |
|---|---|
| `OrderLock.dfy` | `LockOrder`/`UnlockOrder`: any number of goroutines, one atomic step per statement |
| `UpstreamModels.dfy` | detection, automatic sync and user selection of upstream models of a channel |
| `RateLimiter.dfy` | the in-memory rate limiter and its background sweep |
| `ResponseBuffer.dfy`, `TaskRelay.dfy` | asynchronous task submission: buffered response, channel retry, billing |
| `MultiKey.dfy` | multi-key channel management: index-keyed status, time and reason maps |
| `PriceDiff.dfy`, `PriceSelection.dfy` | differences between local and upstream prices; choice among models.dev prices |
| `OggOpus.dfy` | the Ogg page scan behind Opus durations |
| `BodyStorage.dfy` | request bodies in memory or on disk, and their counters |
| `GroupRatio.dfy` | the database / runtime / option-map update of group ratios |
| `StepUp.dfy` | passkey and one-time-code verification kept in the session |
| `RedisHash.dfy` | a struct printed into a Redis hash and parsed back |
| `VideoBilling.dfy` | re-billing and refunds of polled video tasks |
| `Lists.dfy`, `Text.dfy`, `Bytes.dfy`, `Options.dfy`, `Prices.dfy` | shared helpers |

Check the project with `dafny verify dfyconfig.toml`.

Objects that the source updates in place are classes whose methods are proved equal to a function of the old
state; the laws are proved about those functions. Loops of the source are loops here.

## Where the code falls short of the obvious law

Each of these is stated as an exact condition.

- A model name with a comma is torn apart by the comma-joined model column, and a name starting with "regex:"
  shares one list with the ignore patterns; `UpstreamModels.FreshIff` says for every selection when the stored
  pending lists go stale (`UpstreamModels.CommaSelectionFails`, `UpstreamModels.RegexSelectionFails`), and
  `UpstreamModels.CheckIsFresh` does so for checks.
- The limiter enforces a positive limit exactly when it has no sweeper or the duration is at most one second
  beyond the expiration; a limit of zero admits one request, a negative one panics (`RateLimiter.EnforcedIff`).
- Deleting auto-disabled keys when all keys are auto-disabled deletes nothing and re-enables every key
  (`MultiKey.AllAutoReenabled`). The key maps act as a plain list of records in all runs exactly when every list
  left by deletions survives the key column (`MultiKey.RunRefinesIff`, `MultiKey.SurvivesIff`).
- A null, the text "same" or a later channel of the same name hides a price difference (`PriceDiff.ReportedIff`,
  `PriceDiff.MarkerTextLost`, `PriceDiff.SharedNameLost`).
- A negative retry limit skips the submission loop and dereferences a missing result (`TaskRelay.RelayTask`).
- The comment on channel selection describes priorities counted from a remembered start; the code sets the retry
  counter back to zero when it changes groups, and the model follows the code (`TaskRelay.RetryParam.Select`,
  `TaskRelay.StepProgress`).
- Creating a body from a reader with the largest 64-bit limit yields an empty body
  (`BodyStorage.HoldsStreamIff`); the disk budget check passes when its 64-bit sum wraps round
  (`BodyStorage.AvailableIff`); reading nothing at the end differs between memory and disk
  (`BodyStorage.StoragesAgree`).
- A failed restore after a committed group-ratio update leaves the three copies apart, exactly unless database and
  runtime already had the option map's normal form (`GroupRatio.StepAgreesIff`, `GroupRatio.EndAgreesIff`,
  `GroupRatio.FailedRestoreDiverges`).
- The 60-second bound on a passkey marker holds at its consumption; the verification is stamped by a second
  clock reading (`StepUp.StampWithinMinuteIff`, `StepUp.StampBoundReached`).
- Login keeps the verification of the session, so a pass is the verifying user's exactly when the last login since
  was theirs (`StepUp.PassBelongsIff`, `StepUp.SwitchKeepsVerification`).
- A deletion time left in a Redis hash by someone else is read back although none is written
  (`RedisHash.RoundTripIff`).
- A failed row update after re-billing loses the new quota (`VideoBilling.StepSettledIff`,
  `VideoBilling.LostUpdateBillsTwice`).

## Model

| member | source | states |
|---|---|---|
| `OrderLock.StepInv` | controller/topup.go:292-321 | every atomic step of every goroutine keeps the joint invariant of table, reference counts, pointers and mutex owners |
| `OrderLock.RunInv` | controller/topup.go:292-321 | the invariant holds in every state of every interleaving |
| `OrderLock.KeyIsAsked` | controller/topup.go:292-321 | a goroutine inside the protocol works on the trade number of its last call, in every run |
| `OrderLock.EveryCallHolds` | controller/topup.go:292-321 | every call that is over has, in between, owned the mutex the table had under its trade number |
| `OrderLock.CanAlwaysCall` | controller/topup.go:292-293 | an idle goroutine can call with any trade number at any time |
| `OrderLock.LastUser` | controller/topup.go:315-319 | when a count has dropped to zero nobody else points at the entry about to be deleted |
| `OrderLock.MutualExclusion` | controller/topup.go:292-321 | of two goroutines whose last call was LockOrder of the same trade number, at most one is between lock and unlock, in every interleaving, entries being deleted and re-created; no unlock of a free mutex, no missed entry |
| `OrderLock.UnlockFindsItsMutex` | controller/topup.go:307-313 | the table read without `createLock` finds, under the trade number asked for, the very mutex the goroutine locked |
| `OrderLock.CountsMatch` | controller/topup.go:286-321 | whenever `createLock` is free, a count is the number of goroutines that asked for the trade number and are registered, all pointing at that entry; a key is absent exactly when there are none |
| `OrderLock.SomeStepEnabled` | controller/topup.go:292-321 | no deadlock: while anyone is inside, some step can run |
| `OrderLock.Drains` | controller/topup.go:292-321 | without new calls every run is finite, and a maximal one leaves all orders released and the table empty |
| `OrderLock.RunWork` | controller/topup.go:292-321 | the remaining work bounds the number of steps |
| `Text.ReadBackIff` | model/channel.go:289-294 | a list survives a separator-joined column exactly when no element holds the separator and neither end is empty |
| `Text.JoinSplit` | model/channel.go:293 | splitting loses nothing |
| `Text.TrimSpaceExact` | controller/channel_upstream_update.go:97-102 | trimming removes the white space at both ends and nothing else |
| `UpstreamModels.MergeModelNames` | controller/channel_upstream_update.go:104-118 | the loop with a seen-set computes the order-preserving union of the normalised lists |
| `UpstreamModels.NormalizeIsNormal` | controller/channel_upstream_update.go:97-102 | normalised lists hold exactly the trimmed non-empty names, once each |
| `UpstreamModels.MergeNormal` | controller/channel_upstream_update.go:104-118 | merging normal lists is the base followed by the new names in order |
| `UpstreamModels.SubtractNormal` | controller/channel_upstream_update.go:120-129 | subtraction keeps order and drops exactly the named models |
| `UpstreamModels.IntersectNormal` | controller/channel_upstream_update.go:131-140 | intersection holds exactly the names in both lists |
| `UpstreamModels.DetectNormal` | controller/channel_upstream_update.go:176-235 | detection equals the filtered upstream and local lists: additions not local, not redirected, not ignored; removals not redirected and gone upstream |
| `UpstreamModels.DetectsIff` | controller/channel_upstream_update.go:176-235 | which names a detection reports, in terms of the lists, the redirects and the literal and "regex:" rules, and in which order |
| `UpstreamModels.SelectedFacts` | controller/channel_upstream_update.go:783-818 | a selection is drawn from the pending lists and adding wins over removing |
| `UpstreamModels.SelectedIff` | controller/channel_upstream_update.go:796-802 | exactly the names asked for and pending are selected; adding wins over removing |
| `UpstreamModels.SelectedInOrder` | controller/channel_upstream_update.go:796-802 | in the order of the request |
| `UpstreamModels.AppliedCarries` | controller/channel_upstream_update.go:796-819 | the ignored, pending and removable names after a selection, in terms of the request and the old row |
| `UpstreamModels.AppliedModels` | controller/channel_upstream_update.go:804-809 | the model names after a selection, in the same terms |
| `UpstreamModels.NextModelsShape` | controller/channel_upstream_update.go:142-147 | the new model list is the old one without the removed names, then the added ones |
| `UpstreamModels.FreshIff` | controller/channel_upstream_update.go:783-831 | for every selection, with commas and "regex:" names: the stored remaining lists equal, in order, a fresh detection exactly when every comma piece of an added name is kept, redirected or upstream, and exactly the names taken off the pending list are pieces or matched by a kept rule |
| `UpstreamModels.ModelsAfter` | controller/channel_upstream_update.go:804-809 | the model list read back after a selection: the kept names, then the new comma pieces of the added ones |
| `UpstreamModels.RemovalsFreshIff` | controller/channel_upstream_update.go:815-819 | the removal half of that condition |
| `UpstreamModels.AdditionsFreshIff` | controller/channel_upstream_update.go:811-819 | the addition half of that condition |
| `UpstreamModels.CommaFreeFreshIff` | controller/channel_upstream_update.go:783-831 | for comma-free additions: exactly when kept rules ignore a name just if the old ones did or it was selected |
| `UpstreamModels.RulesAgreeIff` | controller/channel_upstream_update.go:811-814 | the three ways in which the rules can disagree, from the inputs |
| `UpstreamModels.LiteralSelectionAgrees` | controller/channel_upstream_update.go:783-831 | names not starting with "regex:" always agree |
| `UpstreamModels.RemainingIsFreshDetection` | controller/channel_upstream_update.go:783-831 | for every selection without "regex:" names the stored lists equal, in order, a fresh detection exactly when no added name holds a comma |
| `UpstreamModels.CommaBreaksFreshness` | controller/channel_upstream_update.go:796-818 | an added name with a comma that no kept rule ignores makes the stored lists stale |
| `UpstreamModels.CommaSelectionFails` | controller/channel_upstream_update.go:783-831 | a concrete failing selection for every name with a comma |
| `UpstreamModels.CheckIsFresh` | controller/channel_upstream_update.go:360-407 | a check leaves fresh lists exactly when it did not itself add a name with a comma |
| `UpstreamModels.RegexNameStaysPending` | controller/channel_upstream_update.go:783-831 | an ignored "regex:" name that no stored rule matches stays pending |
| `UpstreamModels.RegexSelectionFails` | controller/channel_upstream_update.go:783-831 | concrete failing selection for every such name |
| `UpstreamModels.ApplyAllLeavesNothing` | controller/channel_upstream_update.go:783-831 | applying everything pending empties both stored lists, and a fresh detection finds nothing exactly under the condition of `FreshIff` |
| `UpstreamModels.ApplyAllDetectsNothingIff` | controller/channel_upstream_update.go:783-831 | without "regex:" names: a fresh detection finds nothing exactly when no pending name holds a comma |
| `UpstreamModels.RunStaysFresh` | controller/channel_upstream_update.go:360-407 | every run of checks and selections over plain upstream names keeps the stored lists equal to a fresh detection |
| `UpstreamModels.AutoSync` | controller/channel_upstream_update.go:384-396 | the new column, the names left pending and the number added by automatic synchronisation |
| `UpstreamModels.Channel.Check` | controller/channel_upstream_update.go:360-407 | the persisted row and the report after a check: when it is skipped, and what each of the fetch, save and abilities errors leaves and reports |
| `UpstreamModels.CheckThrottles` | controller/channel_upstream_update.go:366-373 | a saved check makes unforced checks within the interval skips that change nothing |
| `UpstreamModels.CheckReportsGain` | controller/channel_upstream_update.go:384-407 | without commas the reported number is what the model list gains |
| `UpstreamModels.Channel.Apply` | controller/channel_upstream_update.go:783-831 | the persisted row and the reply after a selection, in terms of the request and the old row, with the abilities error; nothing changes if saving fails |
| `RateLimiter.InMemoryRateLimiter.constructor` | common/rate-limit.go:14-26 | an empty store, and a sweeper only for a positive expiration |
| `RateLimiter.InMemoryRateLimiter.Request` | common/rate-limit.go:45-70 | the bounded queue update and its verdict; a new key with a negative limit panics |
| `RateLimiter.NeverAccepted` | common/rate-limit.go:64-68 | a negative limit accepts nothing in any run |
| `RateLimiter.InMemoryRateLimiter.ClearExpiredItems` | common/rate-limit.go:28-43 | one sweep removes exactly the keys whose newest entry has expired, whatever the key order |
| `RateLimiter.AdmitsIffWindowHasRoom` | common/rate-limit.go:45-70 | the queue answers as the full history does |
| `RateLimiter.RunInv` | common/rate-limit.go:28-70 | queue and history stay related over every run of requests and sweeps |
| `RateLimiter.AcceptsExactly` | common/rate-limit.go:28-70 | a request is accepted exactly when fewer than the limit of accepted ones lie in the last window of the full history |
| `RateLimiter.HistoryGaps` | common/rate-limit.go:45-70 | accepted requests a limit apart are a duration apart |
| `RateLimiter.NoWindowOverflows` | common/rate-limit.go:28-70 | no window anywhere ever holds more than the limit |
| `RateLimiter.SweptTooEarly` | common/rate-limit.go:28-43 | with a sweeper, a duration longer than expiration plus one second is not enforced |
| `RateLimiter.EnforcedIff` | common/rate-limit.go:14-70 | a policy is enforced on every run exactly when its limit is negative, or at least 1 with no sweeper or a duration of at most expiration plus 1 |
| `RateLimiter.EnforcedFor` | common/rate-limit.go:14-70 | the same for the expiration given at initialisation |
| `ResponseBuffer.ResponseWriter.Reset` | controller/task_submit_response_buffer.go:113-118 | a reset buffer is blank |
| `ResponseBuffer.ResponseWriter.WriteHeader` | controller/task_submit_response_buffer.go:35-42 | a positive code counts until something was sent |
| `ResponseBuffer.ResponseWriter.WriteHeaderNow` | controller/task_submit_response_buffer.go:44-48 | marks the response sent without data |
| `ResponseBuffer.ResponseWriter.Write` | controller/task_submit_response_buffer.go:50-62 | appends the data and counts it |
| `ResponseBuffer.AfterShows` | controller/task_submit_response_buffer.go:35-62 | any list of handler operations on a blank buffer leaves the concatenated data, the last positive code given before the first send, and for every header key what its last operation left |
| `ResponseBuffer.ResponseWriter.FlushToOriginal` | controller/task_submit_response_buffer.go:95-111 | key by key, the real writer gets all buffered headers over its own, the buffered body, and the buffered status unless nothing was buffered |
| `TaskRelay.RetriesIff` | controller/relay.go:687-727 | which errors are retried |
| `TaskRelay.FirstGroup` | service/channel_select.go:94-130 | the first group from the current one with a channel, all earlier ones without |
| `TaskRelay.FindGroup` | service/channel_select.go:94-130 | the search loop finds that group |
| `TaskRelay.RetryParam.Select` | service/channel_select.go:83-162 | the channel choice and the moved retry cursor, with its reset when a group is exhausted |
| `TaskRelay.RetryParam.IncreaseRetry` | service/channel_select.go:33-42 | one step of the counter unless the reset flag swallows it |
| `TaskRelay.StepProgress` | controller/relay.go:559-609 | every retry keeps the counter within the limit and strictly lowers the budget, although group changes reset the counter |
| `TaskRelay.AttemptsBounded` | controller/relay.go:559-609 | the loop ends within one full round of attempts per remaining group |
| `TaskRelay.PlainAttemptsBounded` | controller/relay.go:559-609 | without automatic groups there are at most as many retries as configured |
| `TaskRelay.GivesUpOnlyExhausted` | controller/relay.go:606-608 | the loop gives up on a rejection worth a retry only when the limit is used up, and otherwise ends as the last attempt did |
| `TaskRelay.PlainRunExact` | controller/relay.go:559-609 | on a fixed group or locked channel the run is exactly: go on while rejected with a retryable error and retries are left |
| `TaskRelay.PlainRunUnique` | controller/relay.go:559-609 | that description leaves one number of attempts and one end |
| `TaskRelay.CrossGroupNeverGivesUp` | service/channel_select.go:130-150 | across groups, with at least one retry allowed, a retryable rejection never ends the run |
| `TaskRelay.FullRoundInGroup` | service/channel_select.go:106-150 | across groups each group with channels gets one attempt at every priority up to the limit before the next group |
| `TaskRelay.SingleGroupRound` | service/channel_select.go:106-150 | without cross-group retry that round ends the run |
| `TaskRelay.OnlyLastDecides` | controller/relay.go:559-609 | every attempt but the last was rejected upstream with a retryable error; the last one's answer is the result |
| `TaskRelay.BilledByAttempt` | controller/relay.go:545-551 | a billing session opened by an attempt survives to the end, and none appears otherwise |
| `TaskRelay.RetryLoop` | controller/relay.go:559-609 | the loop computes that run, so it stops as the run laws below say, and leaves the last attempt's response in the buffer |
| `TaskRelay.Finalize` | controller/relay.go:633-677 | one row and one settlement attempt, or neither; a failed settlement is noted on the row |
| `TaskRelay.RelayTask` | controller/relay.go:537-631 | the run ends in exactly one of two ways: error response (reworded when the upstream is busy), no row, no settlement, one refund if a session exists; or one row, one settlement attempt, no refund and the last attempt's header, status and body alone |
| `MultiKey.SurvivesIff` | model/channel.go:175-197 | which key lists survive the key column |
| `MultiKey.CountKeysMeans` | model/channel.go:526-573 | the recount agrees with reading, except for an empty JSON array |
| `MultiKey.DeleteKeyRemovesOne` | controller/channel.go:1661-1739 | after deleting position i the visible records are the previous ones without position i, exactly when the remaining keys survive the column |
| `MultiKey.AllAutoReenabled` | controller/channel.go:1741-1808 | with every key auto-disabled nothing is deleted and every key is enabled again |
| `MultiKey.DeleteDisabledFilters` | controller/channel.go:1741-1808 | the visible list is filtered to status other than 3 exactly when some key stays and the rest survive the column |
| `MultiKey.DeleteDisabledKeeps` | controller/channel.go:1741-1808 | the re-indexed maps give every kept key its own status, time and reason |
| `MultiKey.ActRefines` | controller/channel.go:1391-1808 | every action on column and index maps does what it does on a plain list of records, and keeps size and ranges valid, when every list left by deletions survives the column |
| `MultiKey.RunRefines` | controller/channel.go:1391-1808 | the same for every run of actions; some key always remains |
| `MultiKey.RunRefinesIff` | controller/channel.go:1391-1808 | all runs refine the list machine if and only if every list left by deletions survives the column |
| `MultiKey.HereditaryNeeded` | controller/channel.go:1661-1739 | the needed half: a list that does not survive is reached by deletions |
| `MultiKey.LinesSound` | model/channel.go:175-197 | the gateway's column counts the keys it reads |
| `MultiKey.PlainIff` | model/channel.go:175-197 | keys on one line whose trimmed text does not start with "[" are exactly the ones safe whatever the JSON parser does |
| `MultiKey.GatewayRunRefines` | controller/channel.go:1391-1808 | so every run on the gateway's own column with such keys acts on a plain list of records |
| `MultiKey.WithinCount` | model/channel.go:526-573 | the cleaning loop of the update drops exactly the statuses beyond the key count |
| `MultiKey.CountsSumToSize` | controller/channel.go:1391-1503 | the three status counts add up to the size |
| `MultiKey.PagesCoverAll` | controller/channel.go:1391-1503 | pages 1 to the page count concatenate to the filtered list |
| `MultiKey.PagesAreTight` | controller/channel.go:1391-1503 | no page is too long, and only the page of an empty list is empty |
| `MultiKey.FilteredEntries` | controller/channel.go:1391-1503 | the filtered list shows records that pass, each with its own status, time, reason and key preview, in order |
| `MultiKey.FilteredAll` | controller/channel.go:1391-1503 | and every record that passes |
| `MultiKey.CountIsFiltered` | controller/channel.go:1391-1503 | a status count is the number of entries its filter shows |
| `MultiKey.TakePage` | controller/channel.go:1391-1503 | page defaults, page count and clamping |
| `MultiKey.DisableEnabled` | controller/channel.go:1614-1659 | the loop marks exactly the enabled positions as manually disabled and counts them |
| `MultiKey.SkipKey` | controller/channel.go:1661-1739 | the copying loop re-indexes every position but one |
| `MultiKey.SkipAuto` | controller/channel.go:1741-1808 | the copying loop re-indexes every position that is not auto-disabled |
| `MultiKey.MultiKeyChannel.Update` | model/channel.go:526-573 | the saved channel: an empty key keeps the stored column, the size is recounted, out-of-range entries go |
| `MultiKey.MultiKeyChannel.Disable` | controller/channel.go:1505-1546 | new state, exact refusal condition and reported count |
| `MultiKey.MultiKeyChannel.Enable` | controller/channel.go:1548-1588 | new state, exact refusal condition and reported count |
| `MultiKey.MultiKeyChannel.EnableAll` | controller/channel.go:1590-1612 | new state and the reported count |
| `MultiKey.MultiKeyChannel.DisableAll` | controller/channel.go:1614-1659 | new state, exact refusal condition and reported count |
| `MultiKey.MultiKeyChannel.Delete` | controller/channel.go:1661-1739 | new state, exact refusal condition and reported count |
| `MultiKey.MultiKeyChannel.DeleteDisabled` | controller/channel.go:1741-1808 | new state, exact refusal condition and reported count |
| `MultiKey.MultiKeyChannel.KeyStatusPage` | controller/channel.go:1391-1503 | counts over all keys and the requested page of the filtered list |
| `PriceDiff.CellShowsDifference` | controller/ratio_sync.go:603-634 | a shown cell is neither empty nor "same" exactly when the channel differs |
| `PriceDiff.CellShowsQuote` | controller/ratio_sync.go:605-626 | a cell shows the channel's own value when it differs, the marker when both agree or neither has a value, and nothing when only local has one |
| `PriceDiff.DiffersIff` | controller/ratio_sync.go:48-91 | numbers differ by 1e-9 or more, other values by being different |
| `PriceDiff.TrustedMeans` | controller/ratio_sync.go:570-600 | a channel is untrusted for a model exactly when it quotes 37.5 and 1 within 1e-9 |
| `PriceDiff.BuildDifferences` | controller/ratio_sync.go:536-696 | all phases together, equal channel names included: exactly the surviving items are reported, each listing exactly the heard channels that differ somewhere, with their own quotes and confidence |
| `PriceDiff.ActiveMeans` | controller/ratio_sync.go:655-696 | a channel is kept exactly when it differs somewhere |
| `PriceDiff.WorthMeans` | controller/ratio_sync.go:655-696 | pruning keeps an item exactly when a channel differs in it, or one that differs elsewhere is silent in it |
| `PriceDiff.SurvivesMeans` | controller/ratio_sync.go:536-696 | the items left by building and pruning, in terms of the prices alone |
| `PriceDiff.ReportedIff` | controller/ratio_sync.go:536-696 | when exactly the report agrees with "some channel contradicts local prices" |
| `PriceDiff.PlainValuesExact` | controller/ratio_sync.go:536-696 | for distinct names and values that are neither null nor "same", reported exactly when contradicted |
| `PriceDiff.SharedNameLost` | controller/ratio_sync.go:536-696 | a contradiction drowned out by a later channel of the same name |
| `PriceDiff.MarkerTextLost` | controller/ratio_sync.go:536-696 | a concrete lost contradiction |
| `PriceSelection.SortedKeys` | controller/ratio_sync.go:915-919 | all keys in ascending order |
| `PriceSelection.Build` | controller/ratio_sync.go:845-879 | which costs are valid offers, and what they carry |
| `PriceSelection.SelectFrom` | controller/ratio_sync.go:921-944 | one provider's models update the choices |
| `PriceSelection.ChosenIsBest` | controller/ratio_sync.go:881-944 | the fold over a non-transitive "nearly equal" never drifts: the choice is within 1e-9 of every positive offer and strictly below every earlier one |
| `PriceSelection.Select` | controller/ratio_sync.go:906-944 | a model is priced exactly when some offer is valid; the price is zero only if all are, and otherwise positive and below every positive offer plus 1e-9 |
| `PriceSelection.DriftWithoutOrder` | controller/ratio_sync.go:881-893 | the same comparison in another visiting order drifts by more than 1e-9 |
| `OggOpus.NextPage` | common/audio.go:209-246 | one round of the scan; the offset always grows |
| `OggOpus.OpusDuration` | common/audio.go:196-253 | on arbitrary bytes the scan ends with the largest granule position of the pages it stopped at, over 48000 |
| `OggOpus.DurationOfPages` | common/audio.go:203-253 | on a concatenation of well-formed pages it stops once at each page start and yields the maximum of zero and the signed granule positions |
| `OggOpus.DurationOfStream` | common/audio.go:203-253 | the same behind junk without a capture pattern and before a page cut anywhere: that page counts exactly when its 27-byte header is complete |
| `OggOpus.PageRoundTrip` | common/audio.go:222-246 | the header fields and extent read from an encoded page are the encoded ones |
| `Bytes.Int64RoundTrip` | common/audio.go:229 | the signed little-endian reading inverts the encoding |
| `BodyStorage.MemoryStorage.Read` | common/body_storage.go:47-54 | answer and cursor of a read |
| `BodyStorage.MemoryStorage.Seek` | common/body_storage.go:56-63 | answer and cursor of a seek, negative targets refused |
| `BodyStorage.MemoryStorage.Close` | common/body_storage.go:65-72 | closes once and gives the counters back once |
| `BodyStorage.DiskStorage.Read` | common/body_storage.go:169-176 | answer and cursor of a read |
| `BodyStorage.DiskStorage.Seek` | common/body_storage.go:178-185 | answer and cursor of a seek, negative targets refused |
| `BodyStorage.DiskStorage.GetBytes` | common/body_storage.go:198-230 | the whole content, with the cursor back where it was |
| `BodyStorage.DiskStorage.Close` | common/body_storage.go:187-196 | closes once and gives the counters back once |
| `BodyStorage.StoragesAgree` | common/body_storage.go:47-230 | memory and disk answer every run of operations alike exactly when it never reads nothing at the end |
| `BodyStorage.NonEmptyBuffersSuffice` | common/body_storage.go:47-230 | so they agree on every run with non-empty buffers |
| `BodyStorage.ReadsConcatenate` | common/body_storage.go:47-54 | successive reads of any sizes concatenate to a prefix of the data up to the cursor |
| `BodyStorage.SeekThenRead` | common/body_storage.go:47-63 | a seek from start, cursor or end makes the next read start at that position |
| `BodyStorage.SeekOutside` | common/body_storage.go:56-63 | a seek before the start is refused; reads at the end find the end |
| `BodyStorage.BytesAreData` | common/body_storage.go:74-81 | the whole content is what was stored, in every state, and asking for it moves nothing |
| `BodyStorage.ClosedStays` | common/body_storage.go:47-81 | after a close every other operation is refused and nothing changes |
| `BodyStorage.FromReaderMeans` | common/body_storage.go:262-303 | which bodies go to disk or memory and which failures are errors, in terms of the configuration, the usage and the stream |
| `BodyStorage.HoldsStreamIff` | common/body_storage.go:262-303 | creation from a reader holds the stream exactly when it fits and the limit does not wrap; too large exactly when longer than the limit |
| `BodyStorage.AvailableIff` | common/disk_cache_config.go:170-177 | the disk budget check is exact unless the 64-bit sum wraps |
| `BodyStorage.CreateBodyStorage` | common/body_storage.go:241-259 | memory or disk, the fallback, the held data and the counters |
| `BodyStorage.CreateBodyStorageFromReader` | common/body_storage.go:262-303 | result, held data and counters for every combination of failures |
| `BodyStorage.Stats.DecrementDiskFiles` | common/disk_cache_config.go:115-122 | the counters after a close, clamped at zero |
| `BodyStorage.RunAccounted` | common/body_storage.go:37-196 | after every run of creations and (repeated) closes the counters are the numbers and total sizes of open storages |
| `BodyStorage.RunHits` | common/body_storage.go:282-301 | the hit counters count the bodies created from readers, by kind |
| `BodyStorage.CloseAccounted` | common/disk_cache_config.go:115-134 | the clamps never act on an open storage |
| `BodyStorage.RunWithinCap` | common/body_storage.go:241-303 | disk usage stays within the budget when streams are no longer than declared |
| `GroupRatio.GroupRatioOptions.Restore` | controller/option_group_ratio.go:97-107 | a successful restore makes all copies agree on the database content |
| `GroupRatio.GroupRatioOptions.Reconcile` | controller/option_group_ratio.go:116-141 | the readback succeeds exactly when database and runtime both have the submitted normal form |
| `GroupRatio.GroupRatioOptions.Update` | controller/option_group_ratio.go:161-199 | for every combination of failures: success leaves all copies on the normalised submission, a refusal changes nothing, and after a failed commit follow-up the copies are restored exactly when the restore read works and the database content normalises |
| `GroupRatio.CleanUpdateSucceeds` | controller/option_group_ratio.go:161-199 | an undisturbed update commits the normalised pair |
| `GroupRatio.StepAligns` | controller/option_group_ratio.go:161-199 | success and restore align the copies from any state |
| `GroupRatio.RunAgrees` | controller/option_group_ratio.go:161-199 | over every run the copies agree as long as no restore fails after the last alignment |
| `GroupRatio.StepAgreesIff` | controller/option_group_ratio.go:161-199 | one update keeps agreeing copies in agreement exactly when no restore fails, or database and runtime already have the option map's normal form |
| `GroupRatio.UndisturbedAgreesIff` | controller/option_group_ratio.go:161-199 | with the real applier and no other writer: exactly when no restore fails or the submission changes nothing |
| `GroupRatio.RunAgreesIff` | controller/option_group_ratio.go:161-199 | the copies agree after every update of a run exactly when every update is harmless in that sense |
| `GroupRatio.EndAgreesIff` | controller/option_group_ratio.go:161-199 | from any copies, agreement at the end of a run is decided by the last update that aligned them or failed to restore them |
| `GroupRatio.FailedRestoreDiverges` | controller/option_group_ratio.go:109-114 | a failing world for every changing submission |
| `StepUp.Session.SetupLogin` | controller/user.go:130-142 | login sets the user and keeps the other keys |
| `StepUp.Session.LogOut` | controller/user.go:158-168 | logout clears all keys |
| `StepUp.Session.PasskeyVerifyFinish` | controller/passkey.go:495-503 | the marker replaces any verification, if the session is saved |
| `StepUp.Session.ConsumePasskeyReady` | controller/secure_verification.go:157-179 | the marker is removed before its age decides; a failed save leaves it and refuses |
| `StepUp.Session.SetSecureVerification` | controller/secure_verification.go:145-155 | time and method are recorded and the marker removed |
| `StepUp.Session.UniversalVerify` | controller/secure_verification.go:78-131 | verdict and session after a code or passkey request |
| `StepUp.Session.RequireVerification` | controller/passkey.go:569-586 | verdict of a gate, and the clearing of a stale verification |
| `StepUp.MarkerIsReadyAt` | controller/secure_verification.go:157-179 | over every run the stored marker is that of the last finish not yet consumed |
| `StepUp.GatePassesIff` | controller/passkey.go:569-586 | a gate passes exactly when the latest unrevoked verification is by the needed method and younger than 300 seconds |
| `StepUp.PasskeyGateIsBacked` | controller/secure_verification.go:98-179 | behind every passkey-gated pass stand a passkey verify and its own finish, consumed within 60 seconds |
| `StepUp.BacksOnce` | controller/secure_verification.go:157-179 | each finish backs at most one verify |
| `StepUp.StampBound` | controller/secure_verification.go:145-179 | in every run the verification stamp is less than 60 seconds plus the delay between the two clock readings after its finish |
| `StepUp.StampBoundReached` | controller/secure_verification.go:145-179 | a run that reaches the bound, for every delay |
| `StepUp.StampWithinMinuteIff` | controller/secure_verification.go:145-179 | the stamp is within 60 seconds of the finish in all runs exactly when no time passes between the two readings |
| `StepUp.PassBelongsIff` | controller/user.go:130-142 | a pass is by the user who verified exactly when the last login since the verification, if any, was theirs |
| `StepUp.FinishBelongsIff` | controller/user.go:130-142 | the same for the finish behind a passkey verify |
| `StepUp.OneUserThroughout` | controller/user.go:130-173 | when no login replaces another user, one user finished, verified and passed |
| `StepUp.SwitchKeepsVerification` | controller/user.go:130-142 | a second login without logout keeps the first user's verification |
| `RedisHash.IntRoundTrip` | common/redis.go:142-143 | a printed number parses back exactly when it fits 64 bits |
| `RedisHash.ParseIntSyntax` | common/redis.go:209-213 | only an optional sign and digits are a number; sign and leading zeros are handled |
| `RedisHash.BoolRoundTrip` | common/redis.go:136-139 | printed booleans parse back |
| `RedisHash.ParseBoolIff` | common/redis.go:214-219 | exactly twelve words are flags |
| `RedisHash.PrintFields` | common/redis.go:114-144 | the loop prints every field but the deletion time and nothing else |
| `RedisHash.ReadFields` | common/redis.go:187-236 | the loop parses field by field and stops at the first error |
| `RedisHash.Redis.HSetObj` | common/redis.go:107-159 | the hash is merged with the printed fields; an empty set of fields is refused |
| `RedisHash.Redis.HGetObj` | common/redis.go:161-239 | missing and empty hashes are errors; otherwise the parsed fields |
| `RedisHash.RoundTripIff` | common/redis.go:107-239 | reading what was written, over whatever the hash held before, succeeds exactly when every field is readable, and then returns exactly the expected struct |
| `RedisHash.FieldRoundTrip` | common/redis.go:107-239 | each field of what was written reads back as expected; a stale text under a deletion-time field is parsed |
| `RedisHash.OriginalIff` | common/redis.go:107-239 | text, number and flag fields come back unchanged except pointers to the empty text; deletion times are dropped when the hash held none |
| `RedisHash.CacheThenLoad` | common/redis.go:107-239 | store then load, end to end |
| `VideoBilling.VideoTask.Update` | controller/task_video.go:121-262 | stored row and user balance after one poll, for every combination of failures |
| `VideoBilling.StoresReport` | controller/task_video.go:121-133 | a known status is stored as reported, a missing one as failure, an unknown one changes nothing |
| `VideoBilling.FailureRefunds` | controller/task_video.go:227-262 | a task that fails is paid back in full |
| `VideoBilling.SuccessCharges` | controller/task_video.go:150-226 | a task that succeeds with known usage costs that usage, whether more or less was charged before |
| `VideoBilling.ProgressIsFree` | controller/task_video.go:134-142 | a status on the way moves no money |
| `VideoBilling.StepSettledIff` | controller/task_video.go:121-262 | one poll keeps "paid equals stored quota, zero after failure" exactly when re-billing is followed by a successful update, the refund is credited and a failed task is not revived |
| `VideoBilling.RunSettled` | controller/task_video.go:121-262 | over every orderly run the net charge is the stored quota until failure and zero after it |
| `VideoBilling.FailedTaskIsFree` | controller/task_video.go:121-262 | after every orderly run, a task last reported failed has cost nothing |
| `VideoBilling.RunSettledIff` | controller/task_video.go:121-262 | the books are right after every poll exactly when every poll was booked |
| `VideoBilling.LostUpdateBillsTwice` | controller/task_video.go:160-256 | a lost update makes the next poll bill the difference again |

## Left out

- The order lock is a transition system over values, not a class: Dafny has no threads. Sequentially consistent memory is taken for granted.
- Regular expressions, JSON, gin's JSON rendering, time parsing and group-ratio normalisation are parameters; idempotence of the normalisation is assumed where stated.
- HTTP binding, routing, audit and usage logs, notifications and cache refresh after channel changes: plumbing without a law of its own.
- IEEE rounding, NaN and infinities: prices, ratios and durations are real numbers; the re-billed quota is an arbitrary integer.
- Strings are sequences of characters compared character by character; Unicode case and encodings play no part.
- UpstreamModels: fetching the upstream list, what the abilities update does, and the batch task over all channels.
- MultiKey: the random or round-robin choice of the next key, the channel lock, and a cached `Keys` list.
- RateLimiter: a sweep and a request are atomic, as the mutex makes them; the sweeper's sleep is arbitrary; limits too large to allocate a queue for are not modelled.
- TaskRelay.RelayTask: a failed write to the client while flushing, panic recovery and channel auto-ban are not modelled; the automatic groups of a user do not change during the request.
- ResponseBuffer: hijacking, push and close notification.
- PriceSelection.Select: the decode errors, the "no valid entries" error and the final division into ratios are not modelled.
- OggOpus.OpusDuration: reads are complete unless the file ends; other audio formats are not modelled.
- BodyStorage: input and output errors after creation, seek offsets near the 64-bit limit, whence values other than the three standard ones, overflow of the counters, concurrent creations, and cleanup, reset or sync of the counters.
- StepUp: requests of one session are served in order, each seeing the last saved session; session values of a foreign type and requests authenticated by an access token instead of the session are not modelled. One-time-code checking, enrolment and WebAuthn itself are parameters of the events.
- RedisHash: expiry of keys, unexported fields, and text types with their own formatting.
- VideoBilling: progress texts, start and finish times, usage statistics and logs.
- LDXP top-up sessions, Midjourney, subscriptions, OAuth, e-mail, deployments, option validation and constant tables: they would only add easy members or live behind code that is not modelled.
