# dave-monitoring, modelled in Dafny

The repository holds small Node scripts that watch a Cartesi Dave
deployment on a chain and post alerts to a Discord webhook. This project
models three of them and proves properties of each model.

- **The current event monitor** (`src/monitor.js`, modules `BlockRanges`,
  `Tournaments`, `OrderedMap` and `Monitor`). One run of `checkForEvent`
  does the following:
  - reads the state document;
  - splits the blocks from the stored cursor to the chain tip into ranges
    of at most `BATCH_BLOCK` blocks (`getBlockRanges`);
  - fetches the `commitmentJoined(root)` logs of every range;
  - folds each log into the tournament book (`data.tournaments`), asking
    for each block's timestamp once through a cache, and keeps a
    high-water `lastTimestamp`;
  - posts one dispute alert for each collected tournament entry whose
    tournament now holds more than one claim;
  - writes back the book, the timestamp and the tip as the new cursor.

  `checkBalance` alerts when the node's balance is at or below
  `MIN_BALANCE`.
- **The earlier event monitor** (`monitor.js`, module `LegacyMonitor`). It
  makes a single `getLogs` query over a window of at most 999 blocks past
  the cursor, and it stores only the transaction hash of each claim. Its
  dispute alert gives the claim count, and its own `notifyDiscord`
  swallows delivery errors.
- **The settlement watcher** (`canSettleMonitor.js`, module
  `SettleMonitor`). It stamps the moment the contract's `isFinished` turns
  true and records the sealed epoch. It alerts while an epoch has been
  open for settlement for more than an hour.

The chain client, the webhook, the files and the clock are parameters of
the model:
- a contract or RPC read that rejects is `None`;
- in the event monitor a delivery outcome is a function `nat -> bool` of
  the attempt number within the run, so the same message can succeed once
  and fail the next time; in the settlement watcher it is a function
  `SettleAlert -> bool` of the alert, because its run sends at most one
  alert (`SettleMonitor.RunCommits`), so the attempt number is always 0;
- a state file that cannot be read or parsed is `None`.

Each run is written twice:
- as a `method` that follows the source step by step, with the loops and
  the block cache kept as loops and a map;
- as a `Run` function that is the reference definition.

The method is proved equal to the function, and the properties are
lemmas about the function.

The state objects are updated in place in the source. They are modelled
as values: the book is a `map` from address to tournament, and a
tournament's `claims` object is an insertion-ordered map (`OrderedMap`).
This keeps `Object.getOwnPropertyNames` order. `toVerify` holds the
tournament objects themselves, and every entry for one address aliases
the same object. So the model keeps the address, and the dispute loop
reads the tournament as it is at the end of the first loop.

Some behaviours of the code are easy to miss, and the model keeps them:
- **Range start.** The ranges start at the stored cursor itself, not one
  past it. So the cursor block is queried a second time whenever the
  previous run's last range reached the tip. Its logs, delivered a second
  time, leave the book and the high-water timestamp unchanged
  (`Monitor.RefetchHarmless`). They do add `toVerify` entries again, so a
  disputed tournament logged in that block is alerted on again.
- **Tip block.** The loop guard `start < toBlock` leaves the tip block
  out exactly when the distance is a multiple of `BATCH_BLOCK`
  (`BlockRanges.LastRangeEnd`). Such a block is only picked up later,
  because the next run starts at the cursor; it is then queried for the
  first time, and no block is queried twice.
- **Cursor.** The cursor is set to the tip even when the tip is below the
  stored cursor, so it can move backwards.
- **Alert count.** A dispute alert is sent once for each log of the run
  whose tournament is disputed, on every run that logs it again. It is
  not sent once per dispute episode (`Monitor.RunAlertCount`).
- **Delivery failures.** In the earlier monitor a failed delivery never
  ends the run.

In `canSettleMonitor.js`, line 109 compares the fresh sealed epoch with
`res.currentSealedEpoch`. `res` never has that field at that point, so
the stored sealed epoch is always replaced by the fresh read. The model
does exactly this (`SettleMonitor.TransitionFacts`).

## Model

| member | source | states |
|---|---|---|
| BlockRanges.BigintMin | src/monitor.js:18-20 | the result is at most both arguments and is one of them |
| BlockRanges.GetBlockRanges | src/monitor.js:22-33 | the ranges the loop pushes are exactly the reference plan `Ranges(fromBlock, toBlock, maxRange)` |
| BlockRanges.RangesShape | src/monitor.js:22-33 | the plan is empty iff `fromBlock >= toBlock`; it starts at `fromBlock`; every range is non-empty, within `[fromBlock, toBlock]` and at most `maxRange` long; each range starts one past the previous end; the last ends at `toBlock - 1` or `toBlock` |
| BlockRanges.RangesEnds | src/monitor.js:25-30 | empty iff `fromBlock >= toBlock`; first start and last end as above |
| BlockRanges.RangesBounded | src/monitor.js:26-29 | every range is non-empty, lies within `[fromBlock, toBlock]` and holds at most `maxRange` blocks |
| BlockRanges.RangesContiguous | src/monitor.js:26-29 | each range starts one past the end of the previous one |
| BlockRanges.RangesAscending | src/monitor.js:25-30 | every block of an earlier range lies below every block of a later one, so no block is queried twice |
| BlockRanges.RangesCover | src/monitor.js:25-30 | every block in `[fromBlock, toBlock - 1]` is in some range, and every block in a range is within `[fromBlock, toBlock]` |
| BlockRanges.LastRangeEnd | src/monitor.js:26-29 | the last range ends at `toBlock - 1` exactly when `toBlock - fromBlock` is a multiple of `maxRange`, otherwise at `toBlock` |
| OrderedMap.Empty | src/monitor.js:71-74 | a new tournament's `claims` has no keys |
| OrderedMap.Size | src/monitor.js:85-86 | the number of own property names equals the number of stored claims |
| OrderedMap.Put | src/monitor.js:76-80 | after `claims[root] = v` the root maps to `v` and the other claims are unchanged; a present root keeps its place in the key order, a new one is appended |
| Tournaments.Entry | src/monitor.js:71-74 | a stored tournament is returned as is, otherwise a new one with the log's address and no claims |
| Tournaments.Upsert | src/monitor.js:71-81 | one log adds its address to the book, sets the claim of its root in its tournament's claims and leaves every other tournament unchanged |
| Tournaments.Targets | src/monitor.js:75 | `toVerify` has one entry per log, naming that log's tournament, in log order |
| Tournaments.Flagged | src/monitor.js:84-86 | the entries the dispute loop alerts on are disputed `toVerify` entries, at most one per entry |
| Tournaments.FoldLookup | src/monitor.js:61-82 | after the loop each claim holds the value of the last log written to it, or its stored value when no log writes it |
| Tournaments.LastWriterWins | src/monitor.js:76-80 | the last log of the batch with address `a` and root `r` leaves its value in `tournaments[a].claims[r]` |
| Tournaments.UnwrittenClaimKept | src/monitor.js:76-80 | a claim no log of the batch writes keeps its stored value, or stays absent |
| Tournaments.FoldGrows | src/monitor.js:71-81 | no stored tournament or claim is removed, no address field changes and stored claims keep their order |
| Tournaments.FoldDomain | src/monitor.js:71-81 | the tournaments afterwards are the stored ones plus the addresses the batch logs; a tournament first seen in the batch carries its own address |
| Tournaments.FoldCovers | src/monitor.js:76-81 | every log of the batch leaves its tournament and its root in the book |
| Tournaments.FoldKeepsShape | src/monitor.js:76-80 | writes whose tournament and root are all present only change claim values, not the tournaments or their key order |
| Tournaments.FoldIdempotent | src/monitor.js:61-82 | folding the same batch a second time changes nothing |
| Tournaments.FoldAppend | src/monitor.js:61-82 | folding two batches one after the other equals folding their concatenation |
| Tournaments.FoldOverlap | src/monitor.js:61-82 | a batch that repeats the tail of the previous one leaves the book as if the repeated logs had come once |
| Tournaments.FoldKeyed | src/monitor.js:71-81 | if every stored tournament records the address it is stored under, so does every tournament after the fold |
| Tournaments.MessagesEach | src/monitor.js:84-95 | with every address in the book, the messages built are one per address, message `i` built from tournament `keys[i]` |
| Tournaments.MessagesAppend | src/monitor.js:84-96 | the messages for two parts of the flagged list are the messages of each part in turn |
| Tournaments.DisputeStays | src/monitor.js:85-86 | a disputed tournament stays disputed after any later batch and its claim count never drops |
| Tournaments.FlaggedCount | src/monitor.js:84-86 | each entry of a disputed tournament is flagged, and none of an undisputed one: as many alerts as entries |
| Tournaments.FlaggedEmpty | src/monitor.js:84-86 | no alert at all iff no entry's tournament holds more than one claim |
| Tournaments.FlaggedAppend | src/monitor.js:84-96 | the dispute loop over two parts of `toVerify` equals the two loops in turn |
| Monitor.FetchAll | src/monitor.js:43-52 | the logs are fetched iff every range's query succeeds, and then they are the first range's logs followed by the rest's |
| Monitor.FetchAllMembers | src/monitor.js:43-52 | a fetched batch holds a log iff some range's query answered it |
| Monitor.FetchAllAppend | src/monitor.js:43-52 | fetching two lists of ranges succeeds iff each does, and then yields the first list's logs followed by the second's |
| Monitor.Writes | src/monitor.js:76-80 | one claim assignment per log, with the log's transaction, block and that block's timestamp |
| Monitor.HighWater | src/monitor.js:54-70 | the high-water timestamp is at least the stored one and every block timestamp of the batch, and is one of them |
| Monitor.CachedBlock | src/monitor.js:62-66 | the block is what `getBlock` answers, the client is asked exactly when the block is not cached, and the cache keeps holding only the client's answers |
| Monitor.FetchStep | src/monitor.js:62-66 | a cache lookup keeps the list of calls free of repeats and in step with the cache keys; a miss appends that block |
| Monitor.IngestStep | src/monitor.js:61-82 | one iteration extends the book by one upsert, `toVerify` by the log's address and the high-water mark by the block's timestamp |
| Monitor.IngestLogs | src/monitor.js:59-82 | the loop succeeds iff every block can be fetched; then the book, `toVerify` and `lastTimestamp` are their reference values; `getBlock` is called once per distinct block number, and on failure the last call is the one that failed |
| Monitor.Listing | src/monitor.js:85-92 | the message lists every claim of the tournament, in property order, each with the stored claim's transaction and block number |
| Monitor.Dispatch | src/discord.js:23-26 | awaiting each delivery in turn: all are handed over iff every attempt succeeds, and otherwise the handed-over alerts end with the first failed attempt |
| Monitor.RepeatedAlertCanFail | src/monitor.js:84-94 | the same message handed over twice can be delivered the first time and fail the second, failing the run with both handed over |
| Monitor.DispatchStops | src/discord.js:23-26 | once a delivery has failed, later alerts are never handed over |
| Monitor.NotifyStep | src/monitor.js:84-96 | one iteration sends the entry's alert exactly when its tournament has more than one claim |
| Monitor.NotifyStops | src/monitor.js:84-96 | after a failed delivery the rest of `toVerify` sends nothing |
| Monitor.NotifyDisputes | src/monitor.js:84-96 | the alerts the loop hands over and its success are those of the reference dispatch of the flagged entries' messages |
| Monitor.CheckForEvent | src/monitor.js:35-107 | the method's outcome is the reference run's; `getBlock` is called for no block twice and only for blocks of the run's logs, for all of them when the run commits, never before the logs are fetched, and with the failed lookup last when a block is unavailable |
| Monitor.CommittedShape | src/monitor.js:35-107 | a committed run had every read succeed and every alert delivered, and writes the tip, the high-water mark and the folded book |
| Monitor.RunCommitted | src/monitor.js:54-102 | a committed run writes the tip as cursor and a timestamp at least the stored one; it keeps every stored tournament with its address and claim order, and adds only tournaments of logged addresses |
| Monitor.BookGrows | src/monitor.js:71-81 | the fold keeps every stored tournament and its claim order, and adds tournaments only under addresses of the batch, each with its own address |
| Monitor.RunAlerts | src/monitor.js:84-96 | every alert of a committed run was delivered and lists more than one claim; with a consistent stored book, each names a disputed tournament of the written book and lists all its claims |
| Monitor.AlertsDelivered | src/monitor.js:84-96 | a completed dispute loop sent one message per flagged entry, attempt `i` delivered, each the full listing of a disputed tournament |
| Monitor.AlertsNamed | src/monitor.js:84-96 | in a consistent book each dispute message names a disputed tournament and is that tournament's full listing |
| Monitor.RunFailed | src/monitor.js:103-106 | a failed run writes nothing; it fails on the state file iff that is unreadable; only a delivery failure has sent alerts, and then the last attempt failed and the earlier ones were delivered |
| Monitor.NothingNew | src/monitor.js:42-101 | with the cursor at or past the tip, the run sends nothing and writes the stored book with the tip as cursor and the stored timestamp |
| Monitor.RunClaims | src/monitor.js:76-81 | after a committed run, a claim written by the batch holds the last log's transaction, block and block timestamp; a claim not written keeps its stored value |
| Monitor.ClaimsAfter | src/monitor.js:76-81 | after the fold, the last log for an address and root wins, and a claim no log writes keeps its stored value |
| Monitor.RunAlertCount | src/monitor.js:75-96 | with a consistent stored book, a committed run alerts on a tournament once per log of it if it ends the run disputed, and never otherwise |
| Monitor.AlertCount | src/monitor.js:84-96 | in a consistent book the dispute loop alerts on an address once per `toVerify` entry naming it if it is disputed, and never otherwise |
| Monitor.LogPositions | src/monitor.js:75 | the positions of an address among the logs are its entries in `toVerify` |
| Monitor.RefetchHarmless | src/monitor.js:42-101 | logs delivered again by the next run, for the cursor block when the previous run's last range reached the tip, change neither the book nor the high-water timestamp |
| Monitor.HighWaterAppend | src/monitor.js:67-70 | the mark over two batches is the mark over the second started from the mark over the first |
| Monitor.CheckBalance | src/monitor.js:115-128 | an alert is raised iff the balance was read and is at or below the floor, and it carries that balance |
| Monitor.ConfiguredPlan | src/monitor.js:7-42 | with `BATCH_BLOCK` unset the batch is 500; any configured positive batch plans ranges within the interval of at most that many blocks |
| Monitor.LowBalanceThreshold | src/monitor.js:113-121 | the default floor is 10^17 wei; a balance exactly at the floor alerts, one wei above does not, and a lower balance alerts whenever a higher one does |
| LegacyMonitor.Window | monitor.js:49-52 | the window ends at the tip, capped at 999 blocks past the cursor |
| LegacyMonitor.Writes | monitor.js:63-71 | one transaction-hash assignment per log, in log order |
| LegacyMonitor.IngestStep | monitor.js:63-71 | one iteration extends the book by one upsert and `toVerify` by the log's address |
| LegacyMonitor.IngestLogs | monitor.js:63-71 | the book and `toVerify` after the loop are the reference fold and targets of the logs |
| LegacyMonitor.NotifyStep | monitor.js:72-79 | one iteration adds the entry's count message exactly when its tournament holds more than one claim |
| LegacyMonitor.NotifyDisputes | monitor.js:72-79 | the alerts sent are the count messages of the flagged entries, in order |
| LegacyMonitor.CheckForEvent | monitor.js:44-89 | the method's outcome is the reference run's |
| LegacyMonitor.RunCommits | monitor.js:44-89 | a run commits iff the document, the tip and the single log query all succeed; a failed run sends nothing |
| LegacyMonitor.RunCursor | monitor.js:48-83 | the new cursor is at most the tip and at most 999 past the old one; it advances when the tip is ahead, stays or advances when the tip is not below it, and drops to the tip when the tip is behind |
| LegacyMonitor.RunAlerts | monitor.js:72-78 | every alert reports more than one claim; in a consistent book it names a disputed tournament and reports its claim count after the batch |
| LegacyMonitor.RunAlertCount | monitor.js:59-79 | for a consistent stored book, a committed run alerts on an address once per log of it if its tournament ends the batch disputed, and never otherwise |
| LegacyMonitor.AlertCount | monitor.js:72-79 | in a consistent book the count loop alerts on an address once per `toVerify` entry naming it if it is disputed, and never otherwise |
| LegacyMonitor.CatchUp | monitor.js:49-83 | with the tip standing still, `n` runs reach the tip once `n * 999` covers the distance |
| LegacyMonitor.StaysAtTip | monitor.js:49-83 | a cursor at the tip stays at the tip |
| LegacyMonitor.CursorBehind | monitor.js:49-83 | until the tip is reached, every run advances the cursor by exactly 999 |
| LegacyMonitor.RefetchHarmless | monitor.js:53-83 | the logs of the window's end block, queried again by the next run, leave the book as after one delivery |
| SettleMonitor.OrZero | canSettleMonitor.js:64 | `(x || 0)` leaves any epoch number unchanged |
| SettleMonitor.NormaliseCanSettle | canSettleMonitor.js:62-66 | the normalised answer has the contract's `isFinished`, epoch number and winner commitment |
| SettleMonitor.OrMinusOne | canSettleMonitor.js:76-78 | `(x || -1)` is -1 exactly for 0 and `x` otherwise |
| SettleMonitor.OrMinusOneRoundTrip | canSettleMonitor.js:76-78 | the -1 convention loses nothing: each read field is recovered from its stored form, and distinct reads are stored distinctly |
| SettleMonitor.Seal | canSettleMonitor.js:75-110 | the stored sealed epoch recovers the three numeric fields, keeps the tournament and is created at `now` |
| SettleMonitor.Carried | canSettleMonitor.js:104 | `ts || null` drops a missing or zero timestamp and keeps any other |
| SettleMonitor.AlertFor | canSettleMonitor.js:117-123 | an alert is raised iff `isFinished`, the timestamp is truthy and more than an hour has passed, and it names the epoch |
| SettleMonitor.CheckCanSettle | canSettleMonitor.js:83-126 | the method's outcome is the reference run's |
| SettleMonitor.TransitionFacts | canSettleMonitor.js:99-113 | the new document takes the fresh `isFinished`, epoch and winner; it stamps `now` exactly on the false-to-true edge and otherwise carries the stored timestamp; the sealed epoch is always the fresh read created at `now` |
| SettleMonitor.OnlyStampCarried | canSettleMonitor.js:99-113 | nothing of the stored document survives except `isFinished` and the carried timestamp |
| SettleMonitor.RisingEdgeQuiet | canSettleMonitor.js:101-119 | the run that sees `isFinished` turn true never alerts |
| SettleMonitor.AlertRepeats | canSettleMonitor.js:104-121 | an overdue document stays overdue at every later run while the contract still reports `isFinished` |
| SettleMonitor.StampHeld | canSettleMonitor.js:101-105 | while `isFinished` stays true the stored timestamp does not change |
| SettleMonitor.RisingEdgeRemembered | canSettleMonitor.js:101-119 | after a rising edge at a nonzero time and any number of runs still finished, the stamp is the edge time, and the alert fires exactly when more than an hour has passed since it |
| SettleMonitor.HistoryAppend | canSettleMonitor.js:83-126 | successive runs compose |
| SettleMonitor.UnreadableFirst | canSettleMonitor.js:91-97 | an unreadable document ends the run before any chain read, with the same failure whatever the chain, clock or webhook |
| SettleMonitor.RunCommits | canSettleMonitor.js:99-125 | a run sends at most one alert; it commits iff both reads succeed and any alert is delivered; a committed run writes the transition and alerts iff the new document is overdue |

## Left out

- Files, JSON parsing and serialisation: the state document is a value, and a file that cannot be read, parsed or converted by `BigInt` is `None`. A failed `writeFile` is not modelled.
- Malformed state documents: `Monitor.Doc` and `LegacyMonitor.Doc` always hold a `tournaments` book whose tournaments all hold `claims`, so a parsed `data.json` missing either field cannot be represented. In the source, such a document behaves as follows.
  - A run with no logs commits it and writes it back still without the field (src/monitor.js:56, 100-102; monitor.js:59, 83-84).
  - When `tournaments` is missing, the first log of a run throws a TypeError at src/monitor.js:71, after that log's `getBlock`, or at monitor.js:64.
  - When a stored tournament has no `claims`, the first log for it throws at src/monitor.js:76 or monitor.js:69.
  - Either throw makes the script exit with status 1 without writing (src/monitor.js:103-105; monitor.js:85-87). The cursor then never advances past that log, so every later run fails the same way.
- Fields of the state document that the scripts carry along without reading are not modelled, nor are logs' other fields such as `args` beyond `root`.
- The viem client, `parseAbiItem`, the network and the RPC endpoint: every read is a parameter, and a rejected read is `None`.
- `Promise.all` runs the range queries concurrently. The model fetches them in range order; the result is the same, because `.flat()` keeps range order and any rejection fails the whole call.
- Message text, `formatEther` and console output: an alert is the data it is built from (address and claim listing, claim count, balance or epoch).
- Monitor.CheckBalance: the source calls `notifyDiscord` without awaiting it, alongside `checkForEvent`. A failed delivery there exits the process and can cut a concurrent event run short. That interleaving is not modelled, and the balance alert is returned rather than delivered.
- Environment variables: `BATCH_BLOCK` and `MIN_BALANCE` are parameters with their defaults (`Monitor.BatchBlock`, `Monitor.MinBalance`). A `BATCH_BLOCK` of 0 or a negative one (`BigInt('-1')`) makes `getBlockRanges` loop forever whenever the cursor is below the tip, since `start` never advances. With the cursor at or past the tip, the guard `start < toBlock` fails at once, so such a batch plans no range and the run commits normally. The model's batch size is a `nat`, and `BlockRanges.GetBlockRanges`, `Monitor.Run` and `Monitor.CheckForEvent` require at least 1 on every input, so a batch of 0 or below is excluded even for the runs that would commit (`Monitor.ConfiguredPlan` excludes `Some(0)`). Parse errors of these variables are not modelled.
- The clock: one `now` stands for every `Date.now()` reading of a settlement run (lines 102, 110 and 118), which the source takes a few milliseconds apart.
- The webhook: in the event monitor a delivery is a parameter `nat -> bool` over the run's attempt number (an alert-independent outcome per call), where `false` is the `process.exit(1)` of `src/discord.js`. In the settlement watcher it is a parameter `SettleAlert -> bool` over the alert, where `false` is the `process.exit(1)` of `discord.js`; a settlement run sends at most one alert (`SettleMonitor.RunCommits`, `|out.sent| <= 1`), so its attempt number is always 0 and an outcome per alert loses nothing. An unset `DISCORD_WEBHOOK` returns without sending, which counts as delivered. The earlier monitor's own `notifyDiscord` swallows every error, so there the webhook is not a parameter.
- A rejected contract read in `canSettleMonitor.js` is an unhandled rejection, which ends the process with a non-zero status without writing. It is modelled as a failed run.
- Monitor.RunAlerts, Monitor.RunAlertCount and LegacyMonitor.RunAlertCount: the address stated in an alert is the tournament's `address` field. It equals the key the tournament is stored under only when the stored document records each tournament's own address (`Tournaments.Keyed`), so those facts assume it. The key order of a stored document is taken as given.
