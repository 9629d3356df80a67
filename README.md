# Albion kill-feed bot — a Dafny model of its core

The bot watches the public kill feed of Albion Online and posts the kills
that concern a configured guild, alliance or player list to a Discord
channel, with a rendered image that estimates the value of the gear lost.
This project models three parts of it:

- **The feed poller** (`KillFetcher.js`). It scans the newest events page by
  page, from offset 0 up to a maximum offset. It stops at the first event at
  or below its cursor (`lastSeenEventId`). It skips events it already
  published and events that match no filter. It hands every new match to
  the bot, remembers the ids it published in a bounded set with
  oldest-first eviction, and after the scan moves its cursor to the head of
  the feed. Each page fetch is retried with exponential backoff.
- **The delivery queue** (`DiscordBot.js`). Kills are enqueued unless they
  were already posted or are being posted. The worker takes the first job
  that is due. Each post ends in one of these ways:
  - a knockdown is skipped;
  - a delivered kill is remembered in a bounded posted set (1500 ids);
  - a transient error is re-queued with exponential backoff and jitter;
  - any other error is final.
- **The image's arithmetic** (`ImageGenerator.js`). This covers:
  - choosing a price from a market row, and deciding whether a row is usable;
  - collecting the (item, quality) keys to price and batching the item ids
    by 50;
  - asking the markets city by city, where the first usable row wins;
  - summing item values;
  - the inventory grid layout;
  - the hash-derived name colour, the guild label and the icon URL.

Modules:

| file | module | contents |
|---|---|---|
| `text.dfy` | `Text` | `trim`, ASCII `toLowerCase`, `norm`, `includes`, decimal rendering |
| `events.dfy` | `Events` | kill events, players and items |
| `ledger.dfy` | `Ledger` | the bounded insertion-ordered id set shared by `_rememberPublished` and `_rememberPosted` |
| `watch_filter.dfy` | `WatchFilter` | `matchesFilters` and the bot's `playerNames` |
| `delivery.dfy` | `Delivery` | the `DiscordBot` class: `queueKill`, `processQueue`, `postKillWithTimeoutAndRetry` |
| `feed_scanner.dfy` | `FeedScanner` | `_getEventsPage`, `_pollOnce`, the `KillFetcher` class |
| `prices.dfy` | `Prices` | `pickPrice`, `isUsable`, `fetchPriceMap`, `sumItemValue`, the kill estimates |
| `render.dfy` | `Render` | the inventory layout, `getStableColor`, `formatGuildName`, `getEquipmentImageUrl` |

The model is built from two kinds of definition:

- **Specification functions** describe the pure logic: `Remembered`,
  `MatchesFilters`, `PostEnd`, `FirstReady`, `ScanPage`, `Poll`, `MergeRows`,
  `PriceMap` and `ItemsValue`.
- **Methods** model the code that changes state step by step. Each has the
  source's loops and fields and is proved equal to its specification
  function. The fetcher and the bot are classes whose fields are the
  source's fields.

Some inputs are parameters rather than something the model computes:

- The network is a `Feed`, a function from (call number, offset) to a page or
  an error.
- The market API is a `PriceFeed`, a function from a request to rows or an
  error.
- Random jitter, the clock and the result of the Discord call are
  parameters.

### Behaviour of the code worth knowing

- **Which job is taken.** `processQueue` takes the *first* job in queue
  order that is due (`findIndex`, DiscordBot.js:165-166), not the job that
  is due soonest. `Delivery.FirstReady` and
  `Delivery.PickSkipsOnlyWaitingJobs` state this.
- **Enqueuing a kill that is already queued.** `queueKill` checks only the
  posted and in-flight sets (DiscordBot.js:147-152), not the queue. While the
  worker is busy with another post, a second `queueKill` of a waiting kill
  therefore adds a second job. `Delivery.DuplicateEnqueue` and
  `Delivery.DuplicateEnqueueClient` show this. The second copy is dropped
  when it is dequeued if the first one was posted by then
  (`Delivery.DropSecondCopyClient`). On an idle worker the source behaves
  differently; see "## Left out".
- **A scan that fails part-way keeps its partial work.** A page fetch that
  still fails after its retries propagates out of `_pollOnce`
  (KillFetcher.js:127) and leaves the cursor where it was. The kills already
  handed to the bot and the ids already published for earlier pages
  (KillFetcher.js:167-170) stay in place. `FeedScanner.Poll` models this.
- **The price key.** `fetchPriceMap` requests and files prices under the
  trimmed item type (ImageGenerator.js:492-495; `Prices.PairOf`).
  `sumItemValue` looks prices up under the untrimmed `Type`
  (ImageGenerator.js:609; `Prices.ItemValue`). An item type with surrounding
  white space is therefore never priced.

## Model

| member | source | states |
|---|---|---|
| Text.TrimStartShape | KillFetcher.js:3-5 | trimming the front leaves a suffix that does not start with white space, and everything removed was white space |
| Text.TrimEndShape | KillFetcher.js:3-5 | trimming the back leaves a prefix that does not end with white space, and everything removed was white space |
| Text.Norm | KillFetcher.js:3-5 | `norm`: JavaScript `trim`, then ASCII lower-casing; a missing value is the empty string |
| Text.NormShape | KillFetcher.js:3-5 | a normalised name has no white space at either end and no upper-case ASCII letter |
| Text.NormIdempotent | DiscordBot.js:7-9 | normalising a normalised name changes nothing |
| Text.NormIgnoresCase | KillFetcher.js:3-5 | names differing only in ASCII case normalise alike |
| Text.NormIgnoresPadding | KillFetcher.js:3-5 | surrounding white space does not affect the normal form |
| Text.Contains | DiscordBot.js:213-220 | `includes` holds exactly when the word occurs at some position of the string |
| Text.MissingChar | DiscordBot.js:213-220 | a word containing a character the message lacks is not found in it |
| Text.Digits | DiscordBot.js:263 | an integer in a template literal is written as decimal digits with no leading zero |
| Text.DigitsRoundTrip | ImageGenerator.js:744 | reading the rendered digits back gives the number, so the rendering loses nothing |
| Ledger.Added | KillFetcher.js:186 | adding to the set makes the id a member and adds no other member |
| Ledger.Newest | KillFetcher.js:189-197 | eviction keeps exactly the newest `cap` entries, in insertion order |
| Ledger.Remembered | KillFetcher.js:185-198 | the set never exceeds its capacity; a new id becomes its newest entry; only old members or the id remain; remembering a known id changes nothing |
| Ledger.RememberedDistinct | DiscordBot.js:249-258 | the ledger stays free of duplicates, as a JavaScript Set is |
| Ledger.RememberedEvictsOldest | KillFetcher.js:189-197 | if an entry survives eviction, every entry inserted after it survives too |
| Ledger.RememberedAllFresh | KillFetcher.js:185-198 | after a run of inserts that were each new when made, the ledger is exactly the newest `cap` ids of the whole history |
| Ledger.FreshRunDistinct | KillFetcher.js:155-170 | while nothing is evicted, such a run adds distinct ids none of which was in the ledger before |
| Ledger.NewestOfNewest | KillFetcher.js:189-197 | trimming after each insert gives the same result as trimming once at the end |
| Ledger.Remember | DiscordBot.js:249-258 | the add-then-evict loop computes `Remembered` |
| WatchFilter.NormalizePlayers | DiscordBot.js:45-47 | the watch list holds exactly the non-empty normal forms of the configured names |
| WatchFilter.HasAnyFilter | KillFetcher.js:66-73 | a filter is configured when the normalised guild or alliance is non-empty or the player list is not empty |
| WatchFilter.MatchesFilters | KillFetcher.js:46-89 | no filter configured means no match; otherwise the reason is guild, then alliance, then player, each exactly when its normalised field equals the filter for the killer or the victim, and "no match" when none hits; `ok` exactly for these three reasons |
| WatchFilter.MatchesIffWatched | KillFetcher.js:76-88 | a kill matches exactly when its killer or its victim is watched |
| WatchFilter.MatchesSymmetric | KillFetcher.js:76-86 | swapping killer and victim does not change the verdict or its reason |
| WatchFilter.MatchesSeesOnlyNormalForm | KillFetcher.js:47-64 | configurations and kills that agree up to normalisation get the same verdict |
| WatchFilter.ConfiguredPlayerMatches | DiscordBot.js:45-47 | a kill whose victim is a configured player, in any case or padding, matches |
| WatchFilter.GuildMatchExample | KillFetcher.js:76-78 | guild "Foo" matches a victim from guild "foo", with reason guild |
| Delivery.PostEnd | DiscordBot.js:196-247 | a knockdown is skipped; a delivered kill is posted; a failure is re-queued exactly when it is retryable and tries remain, with the same kill, the try count raised by one and a due time `RetryDelay` (at least 5 s) after the post ended; otherwise it fails with its message |
| Delivery.IsKnockdown | DiscordBot.js:199-200 | a kill is a knockdown exactly when its victim fame is present and 0 |
| Delivery.IsRetryable | DiscordBot.js:212-220 | a failure is transient exactly when its lower-cased message contains "timeout", "rate", "network", "econnreset", "etimedout", "503" or "502" |
| Delivery.RetryDelay | DiscordBot.js:226-228 | retry n waits 5 s doubled n−1 times, plus the jitter |
| Delivery.FirstReady | DiscordBot.js:165-166 | the index of the first job whose due time has passed, or -1 exactly when no job is due |
| Delivery.Soonest | DiscordBot.js:170 | the earliest due time in a non-empty queue |
| Delivery.IdleSleep | DiscordBot.js:168-172 | the idle wait is at least the minimum, reaches some job's due time, and oversleeps no job when above the minimum |
| Delivery.PickSkipsOnlyWaitingJobs | DiscordBot.js:164-166 | when job k is due, the picked job is at or before k |
| Delivery.RetryDelayBounds | DiscordBot.js:226-228 | retry n waits base·2^(n-1) plus less than a second of jitter: between 5 s and 81 s |
| Delivery.TimeoutIsRetryable | DiscordBot.js:260-263 | the timeout error of the post wrapper is classified retryable |
| Delivery.ConnectionResetIsRetryable | DiscordBot.js:212-220 | a connection reset is classified retryable |
| Delivery.ConnectionResetRequeues | DiscordBot.js:222-237 | a first attempt that ends in ECONNRESET is re-queued with one try, due 5–6 s later |
| Delivery.LacksIndicators | DiscordBot.js:212-220 | a message with none of the indicator words' characters is terminal |
| Delivery.InvalidPayloadIsTerminal | DiscordBot.js:212-220 | "invalid payload" is not retryable |
| Delivery.TerminalErrorFails | DiscordBot.js:222-241 | a non-retryable error is thrown on with its own message, whatever the try count |
| Delivery.InvalidPayloadFails | DiscordBot.js:240-241 | an invalid payload fails on the first attempt and is not re-queued |
| Delivery.Admissible | DiscordBot.js:147-152 | `queueKill` accepts a kill exactly when its id is non-zero, not posted and not in flight |
| Delivery.Enqueued | DiscordBot.js:146-156 | a batch of enqueues keeps the old queue as a prefix and appends only admissible kills, as fresh jobs due now |
| Delivery.EnqueuedKeepsAdmissible | DiscordBot.js:146-156 | every admissible kill of a batch is appended |
| Delivery.EnqueuedNext | DiscordBot.js:154 | enqueuing one more kill extends the queue by that kill's job only when it is admissible |
| Delivery.DuplicateEnqueue | DiscordBot.js:149-154 | the same admissible kill enqueued twice gives two jobs |
| Delivery.DiscordBot.constructor | DiscordBot.js:36-56 | an empty queue, posted set and in-flight set, and the normalised player list |
| Delivery.DiscordBot.QueueKill | DiscordBot.js:146-156 | appends a fresh job exactly when the id is non-zero, not posted and not in flight; the sets are unchanged |
| Delivery.DiscordBot.TakeReady | DiscordBot.js:163-175 | removes the first due job from the queue, or reports the idle wait when none is due |
| Delivery.DiscordBot.BeginPost | DiscordBot.js:198-203 | a knockdown stops the post; otherwise the id is marked in flight |
| Delivery.DiscordBot.FinishPost | DiscordBot.js:205-246 | the result is `PostEnd`; the id leaves the in-flight set; a posted id is remembered; a retry is appended to the queue |
| Delivery.DiscordBot.PostKillWithTimeoutAndRetry | DiscordBot.js:196-247 | the whole post: the result is `PostEnd`, and the queue, posted set and in-flight set change accordingly |
| Delivery.DiscordBot.ProcessOne | DiscordBot.js:163-190 | one pass of the worker loop does exactly what `Pass` specifies: the step, the new queue and the new posted ledger; the in-flight set is unchanged |
| Delivery.Pass | DiscordBot.js:163-189 | a pass sleeps exactly when no job is due and then changes nothing; otherwise it takes out the first due job and keeps the others in order; it drops that job unposted exactly when its id is posted or in flight; otherwise the post ends as `PostEnd` says, a retry goes to the back of the queue, and only a delivered post changes the posted ledger, by remembering its id |
| Delivery.Serve | DiscordBot.js:174-189 | handling the due job at a given index: it is taken out with the others kept in order, dropped unposted exactly when its id is posted or in flight, and otherwise ended as `PostEnd` says, a retry going to the back and a delivered id remembered |
| Delivery.DiscordBot.ProcessQueue | DiscordBot.js:158-194 | the steps taken, the final queue and the final posted ledger are those of `Run` over the ticks; the in-flight set ends as it began |
| Delivery.Run | DiscordBot.js:163-190 | one pass per tick while jobs remain: at most one step per tick, the first step is the first pass, and the worker stops early only on an empty queue |
| Delivery.RunKeepsPostedLedger | DiscordBot.js:249-258 | through any run, the posted ledger stays free of duplicates and within 1500 ids |
| Delivery.DuplicateEnqueueClient | DiscordBot.js:146-156 | while the worker is busy with another post, two `queueKill` calls for one new kill leave two jobs in the queue |
| Delivery.DropSecondCopyClient | DiscordBot.js:178-181 | a queued copy of a kill already posted is dropped without posting |
| FeedScanner.Attempts | KillFetcher.js:206-231 | the page is the answer of the last attempt; at most `maxRetries + 1` calls; an error only after all attempts |
| FeedScanner.AttemptsRetryOnlyErrors | KillFetcher.js:207-227 | every attempt before the last one failed, so a success is never retried |
| FeedScanner.BackoffSchedule | KillFetcher.js:216-218 | the backoffs are 500, 1000 and 2000 ms |
| FeedScanner.GetEventsPage | KillFetcher.js:203-232 | the retry loop returns `Attempts`' page and sleeps one backoff per failed attempt that is followed by another |
| FeedScanner.ScanEnds | KillFetcher.js:126-150 | a scan ends on a failed fetch (keeping the error), on an empty page, or on the page that reaches the cursor |
| FeedScanner.ScanGoesOn | KillFetcher.js:126-172 | a full page that does not reach the cursor is followed by the next offset |
| FeedScanner.ScanFromPastEnd | KillFetcher.js:126 | no page is fetched beyond the maximum offset |
| FeedScanner.Examine | KillFetcher.js:142-170 | one event: skipped without an id; at or below the cursor the scan stops; a published or unmatched id is skipped; otherwise it is handed over and remembered |
| FeedScanner.ScanPage | KillFetcher.js:141-171 | the events of one page, examined in order until the cursor stops the scan |
| FeedScanner.ScanFrom | KillFetcher.js:126-172 | the page loop from an offset: a failed fetch aborts with its error; an empty page or reaching the cursor ends it; otherwise the next offset follows, up to the maximum offset |
| FeedScanner.StoppedStays | KillFetcher.js:146-150 | once the cursor is reached, the rest of the page is not examined |
| FeedScanner.Poll | KillFetcher.js:118-183 | the error is the one that aborted the page loop; the cursor never moves back; it moves exactly when the scan was clean and the confirmation read's id lies above it, and then to that id; a non-negative cursor moves only on a successful, non-empty confirmation read, to the first id it returned |
| FeedScanner.HeadId | KillFetcher.js:175-176 | `newestNow`: the first id of a successful, non-empty confirmation read, and 0 otherwise |
| FeedScanner.ExamineTracks | KillFetcher.js:141-171 | examining one kill keeps the scan invariant: only new, matching kills are queued, and the ledger records exactly their ids |
| FeedScanner.ExamineQueues | KillFetcher.js:141-167 | examining an event hands over at most that event, and only when its id is non-zero, above the cursor, not in the published ledger, and matched |
| FeedScanner.ExamineFresh | KillFetcher.js:155-170 | each handed-over id was absent from the published ledger when it was examined; examining one more kill keeps this |
| FeedScanner.ExamineLedger | KillFetcher.js:167-170 | each queued id is remembered right after it is queued |
| FeedScanner.ScanPageTracks | KillFetcher.js:141-171 | a whole page keeps the scan invariant |
| FeedScanner.ScanFromPages | KillFetcher.js:126-172 | the result of a scan is the pages it read, applied in order |
| FeedScanner.PollTracks | KillFetcher.js:118-178 | after a poll, every queued kill is new and matched, no queued id was in the published ledger when it was examined, and the ledger is the old one with the queued ids remembered in order |
| FeedScanner.PollQueuesOnlyNewMatches | KillFetcher.js:141-167 | every kill handed to the bot has a non-zero id above the cursor and passes `matchesFilters` |
| FeedScanner.PollLedgerIsNewest | KillFetcher.js:185-198 | when the old ledger is within its bound, the ledger after a poll holds the newest 500 of the old entries followed by the queued ids |
| FeedScanner.PollNeverRepublishes | KillFetcher.js:155-158 | while the ledger has room for everything a poll queues, no queued id was published before and none is queued twice |
| FeedScanner.NothingNewQueuesNothing | KillFetcher.js:126-178 | when the head of the feed is at or below the cursor, nothing is queued and the ledger is unchanged |
| FeedScanner.CursorScenario | KillFetcher.js:118-178 | with the cursor at 103 and a feed of 105, 104, 103, both new kills are queued in order, 103 stops the scan, and the cursor moves to 105 |
| FeedScanner.CursorScenarioPage | KillFetcher.js:141-171 | on that page, 105 and 104 are published and 103 stops the scan |
| FeedScanner.KillFetcher.constructor | KillFetcher.js:12-31 | the cursor starts at 0 and the published ledger starts empty |
| FeedScanner.KillFetcher.RememberPublished | KillFetcher.js:185-198 | the published ledger becomes `Remembered(old, id, 500)` |
| FeedScanner.KillFetcher.ScanKill | KillFetcher.js:142-170 | one loop body is `Examine`, and the bot's queue receives exactly the kills handed over |
| FeedScanner.KillFetcher.ScanKills | KillFetcher.js:141-171 | the loop over a page is `ScanPage`, and the kills handed to the bot are the ones queued |
| FeedScanner.KillFetcher.ScanOffset | KillFetcher.js:126-172 | one turn of the offset loop either resumes the specified scan at the next offset or ends it with its result |
| FeedScanner.KillFetcher.ScanOffsets | KillFetcher.js:126-172 | the offset loop computes `ScanFrom` from offset 0, and the bot receives the kills it queues |
| FeedScanner.KillFetcher.PollOnce | KillFetcher.js:118-183 | cursor, ledger and queued kills are those of `Poll`; the bot's queue grows by enqueuing exactly those kills; the bot's sets are unchanged |
| Prices.PickPrice | ImageGenerator.js:580-594 | the price is never negative; a positive price comes from the average sell price, the buy maximum or a capped sell minimum, in that order |
| Prices.UsableIffPriced | ImageGenerator.js:525-537 | a row is usable exactly when it yields a positive price |
| Prices.IsUsable | ImageGenerator.js:525-537 | a row is usable when it exists and has a positive average, a positive buy maximum, or a sell minimum in (0, cap] |
| Prices.OutlierMinIgnored | ImageGenerator.js:590-591 | a sell minimum above the cap, with no other price, prices the item at 0 |
| Prices.Pairs | ImageGenerator.js:498-509 | the price keys are the distinct (type, quality) pairs of the typed items |
| Prices.CollectKeys | ImageGenerator.js:492-509 | the collection loop gives those pairs, their item ids and the set of qualities |
| Prices.Batches | ImageGenerator.js:513-517 | the batches concatenate back to the id list; none is empty; all but the last hold 50 ids |
| Prices.MakeBatches | ImageGenerator.js:513-517 | the slicing loop computes `Batches` |
| Prices.Merge | ImageGenerator.js:550-557 | a row replaces its key's entry unless that entry is already usable; other keys are untouched |
| Prices.MergeRows | ImageGenerator.js:549-558 | the rows of one answer, merged one by one in order |
| Prices.UsableStays | ImageGenerator.js:552-554 | once a key holds a usable row, later rows never replace it |
| Prices.NoUsableRow | ImageGenerator.js:549-558 | a key that never receives a usable row ends without one |
| Prices.FirstUsableWins | ImageGenerator.js:539-558 | a key ends with its first usable row |
| Prices.LastUnusableKept | ImageGenerator.js:556-557 | a key with no usable row ends with its last row |
| Prices.OtherKeysUntouched | ImageGenerator.js:549-558 | rows for other keys leave a key's entry alone |
| Prices.NoTypedItemsEmptyMap | ImageGenerator.js:511 | items without a type give an empty price map, without asking any market |
| Prices.EarlierMarketWins | ImageGenerator.js:539-558 | a usable row from an earlier market beats every later market |
| Prices.MarketsInOrder | ImageGenerator.js:540-547 | markets are asked in the configured order, batch by batch |
| Prices.MergeAnswer | ImageGenerator.js:549-558 | the merge loop over one answer computes `MergeRows` |
| Prices.AskMarket | ImageGenerator.js:541-562 | one market's batches are requested in order and merged, and a failed request stops the fetch |
| Prices.FetchPriceMap | ImageGenerator.js:491-577 | the whole fetch computes the specified price map or the first failure |
| Prices.PriceMap | ImageGenerator.js:491-577 | no typed items gives an empty map; otherwise every location's batches are requested in order and all rows merged, or the fetch fails with the first failure |
| Prices.ItemsValue | ImageGenerator.js:596-616 | a sum of item values is never negative |
| Prices.SumItemValue | ImageGenerator.js:596-616 | the summing loop computes `ItemsValue` |
| Prices.ItemValue | ImageGenerator.js:600-613 | an untyped item adds nothing; otherwise the price under its untrimmed (type, quality) key, times 1 in a build and times its count in the inventory |
| Prices.ItemsValueAppend | ImageGenerator.js:599-613 | the value of two item lists together is the sum of their values |
| Prices.UntypedWorthNothing | ImageGenerator.js:602 | items without a type are worth nothing |
| Prices.BuildIgnoresCounts | ImageGenerator.js:606-607 | the value of a build does not depend on stack counts |
| Prices.EstimatesOf | ImageGenerator.js:36-50 | the builds are summed without stack counts and the inventory with them; the total loss is exactly the victim's build plus inventory; all are non-negative |
| Prices.KillEstimates | ImageGenerator.js:36-50 | one price map for all equipment and the inventory; a failed market request fails the estimate with its message; otherwise every figure is read from that map |
| Prices.EstimatesIgnoreGearCounts | ImageGenerator.js:43-45 | kills whose equipment differs only in stack counts, with the same inventory, get the same estimates |
| Render.ItemsPerRow | ImageGenerator.js:58-61 | at least one icon per row; above one, exactly as many as fit between the margins |
| Render.ThirteenPerRow | ImageGenerator.js:58-61 | the 1200-pixel canvas holds 13 icons per row |
| Render.RowsFor | ImageGenerator.js:63-64 | the row count is the ceiling of items per row: just enough rows, and zero for no items |
| Render.InventoryLayout | ImageGenerator.js:53-72 | there is an inventory strip exactly when there are inventory items; it has just enough rows; otherwise the canvas is the top card alone |
| Render.IconsInsideCanvas | ImageGenerator.js:435-444 | every inventory icon, placed row by row, lies in an existing row and above the canvas's bottom edge |
| Render.CodeUnits | ImageGenerator.js:740 | the UTF-16 code units of a name are all below 2^16, at least one per character |
| Render.Hash | ImageGenerator.js:739-740 | the name hash stays in the unsigned 32-bit range |
| Render.Channel | ImageGenerator.js:741-743 | each colour channel lies in 80..207 |
| Render.ChannelIsUnsignedBits | ImageGenerator.js:741-743 | the signed shifts give the same channels as seven-bit fields of the unsigned hash, at bits 0, 8 and 16 |
| Render.GetStableColor | ImageGenerator.js:737-745 | the hashing loop gives the colour of the hash of the name's code units |
| Render.EmptyNameColor | ImageGenerator.js:738-745 | an empty name is coloured rgb(80,80,80) |
| Render.FormatGuildName | ImageGenerator.js:20-22 | the label ends with the guild; it is the guild alone without an alliance, and `[alliance] ` followed by the guild otherwise |
| Render.EquipmentImageUrl | ImageGenerator.js:482-486 | an empty URL exactly for an item without a type; otherwise the render service's address followed by the item type |
| Render.UrlDefaultsToOne | ImageGenerator.js:484 | a missing count or quality gives the same URL as an explicit 1 |

## Left out

- Network, Discord and canvas I/O: `axios`, `fetchJson`, `postKill`'s message
  building, `drawItemIcon` and all drawing calls. A page fetch, a market
  request and a post outcome are parameters of the model.
- The event loop: `_loop`, `start`, `stop`, the `isProcessingQueue` guard, the
  synchronous `processQueue` kick inside `queueKill`, and the interleaving of
  concurrent async calls. The model runs each operation to completion.
- Delivery.DiscordBot.QueueKill: does not run the synchronous start of
  `processQueue` that the kick at DiscordBot.js:155 performs on an idle
  worker. On an idle bot the source takes the new job off the queue and
  marks it in flight before `queueKill` returns, so a second `queueKill` of
  the same kill is refused there. The model keeps two jobs, as the source
  does only while the worker is busy (`Delivery.DuplicateEnqueueClient`).
- `_withTimeout`'s timer: a post that times out is the `TimedOut` outcome,
  with the wrapper's message.
- Sleeps: `_getEventsPage` and `processQueue` report the waits they would
  make. The 120 ms pause between market requests is not modelled, because
  it has no effect on the result.
- The clock and `Math.random`: `now` and the jitter are parameters.
  `PollOnce` uses one `now` for every job it enqueues.
- The log counters of `_pollOnce` (`seen`, `fresh`, `matched`, `queued`,
  `skipped`) and all console output.
- The `allDone` loop of `fetchPriceMap`. It sets a flag and breaks out of its
  own loop, but nothing reads the flag and the location loop never stops
  early, so it has no effect.
- Text.Lower: implements `toLowerCase` for ASCII letters only. Unicode case
  mapping is not modelled.
- FeedScanner.GetEventsPage: a response that is not an array cannot be
  represented. A page is either a sequence of kills or an error.
- Events.Kill: `kill?.EventId || 0`, `TotalVictimKillFame` and the equipment
  slots are typed fields. A missing id is 0 and a missing fame is `None`.
  Null inventory slots (`filter(Boolean)`) are not representable.
- Render.FormatGuildName: a missing name is the empty string. The source
  writes the text "undefined" for a missing guild name.
- Prices.PickPrice: prices are integers. `Number()` coercion of the API's
  fields is not modelled.
- Prices.SumItemValue: the sum is of integer prices, so the final
  `Math.round` has nothing to round.
- Prices.Qualities: the quality list `qList` is modelled as a set. Its
  sorting and joining into the query string are left out.
- Prices.FetchPriceMap: a request is a (location, batch, qualities) record
  rather than a URL.
- `formatSilver`, `fmtCompact`, `SummaryState.js` and `index.js` (wiring and
  configuration loading) are not part of this model. The statistics
  collaborator the bot notifies after a post is also not part of this model.
