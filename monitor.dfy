/** The current event monitor (`src/monitor.js`): one run reads the state
    document, plans block ranges from the stored cursor to the chain tip,
    fetches the `commitmentJoined` logs of every range, folds them into the
    tournament book while resolving each block's timestamp once, alerts on
    every tournament of the batch that holds more than one claim, and writes
    back the book, the high-water timestamp and the tip as the new cursor.
    A separate check alerts when the node's balance is at or below a floor.

    The read client, the webhook and the clock are parameters: a call that
    rejects is `None` (or `false` for a delivery), and any such failure ends
    the run before the write. */
module Monitor {
  import opened Common
  import opened OrderedMap
  import opened Tournaments
  import opened BlockRanges

  /** `BATCH_BLOCK` when the environment does not set it. */
  const DEFAULT_BATCH_BLOCK: nat := 500
  /** `MIN_BALANCE` when the environment does not set it: 0.1 ether in wei. */
  const DEFAULT_MIN_BALANCE: nat := 100_000_000_000_000_000

  /** `{ tx, blockNumber, timestamp }` stored per claim. */
  datatype Claim = Claim(tx: TxHash, blockNumber: nat, timestamp: nat)

  /** The state document `data.json`; `lastTimestamp` may be absent. */
  datatype Doc = Doc(lastProcessedBlock: nat, lastTimestamp: Option<nat>, tournaments: Book<Claim>)

  /** What the read client answers in this run; `None` is a rejected call. */
  datatype Client = Client(
    blockNumber: Option<nat>,                  // getBlockNumber()
    getLogs: Range -> Option<seq<Log>>,         // getLogs({ event, fromBlock, toBlock })
    getBlock: nat -> Option<nat>)               // getBlock(n).timestamp

  /** One claim as a dispute message lists it. */
  datatype Listed = Listed(root: Root, tx: TxHash, blockNumber: nat)

  datatype Alert =
    | Dispute(address: Address, claims: seq<Listed>)
    | LowBalance(balance: nat)

  /** Why a run exited with status 1. */
  datatype Failure = StateUnreadable | TipUnavailable | LogsUnavailable | BlockUnavailable | DeliveryFailed

  /** A run either hands a document to `writeFile`, or fails and writes nothing. */
  datatype Result = Committed(doc: Doc) | Failed(failure: Failure)

  /** The alerts handed to the webhook, in order, and the run's result. */
  datatype Outcome = Outcome(sent: seq<Alert>, result: Result)

  /** `BigInt(process.env.BATCH_BLOCK ?? 500)` */
  function BatchBlock(configured: Option<nat>): nat {
    match configured
    case Some(n) => n
    case None => DEFAULT_BATCH_BLOCK
  }

  /** The configured batch size plans ranges of at most that many blocks,
      500 when unset. A configured 0 would never finish planning, so it is
      excluded. */
  lemma ConfiguredPlan(configured: Option<nat>, fromBlock: nat, toBlock: nat)
    requires configured != Some(0)
    ensures BatchBlock(configured) >= 1
    ensures configured.None? ==> BatchBlock(configured) == 500
    ensures forall i :: 0 <= i < |Ranges(fromBlock, toBlock, BatchBlock(configured))| ==>
              Within(Ranges(fromBlock, toBlock, BatchBlock(configured))[i], fromBlock, toBlock, BatchBlock(configured))
  {
    RangesBounded(fromBlock, toBlock, BatchBlock(configured));
  }

  /** `BigInt(process.env.MIN_BALANCE ?? '100000000000000000')` */
  function MinBalance(configured: Option<nat>): nat {
    match configured
    case Some(n) => n
    case None => DEFAULT_MIN_BALANCE
  }

  // ---------------------------------------------------------------------
  // Fetching

  /** `Promise.all(ranges.map(getLogs))` then `.flat()`: the logs of all
      ranges in range order, or a failure when any query rejects. */
  function FetchAll(getLogs: Range -> Option<seq<Log>>, ranges: seq<Range>): (r: Option<seq<Log>>)
    ensures r.Some? <==> forall i :: 0 <= i < |ranges| ==> getLogs(ranges[i]).Some?
    ensures r.Some? && ranges != [] ==>
              r.value == getLogs(ranges[0]).value + FetchAll(getLogs, ranges[1..]).value
    decreases |ranges|
  {
    if ranges == [] then Some([])
    else
      match (getLogs(ranges[0]), FetchAll(getLogs, ranges[1..]))
      case (Some(first), Some(rest)) => Some(first + rest)
      case _ => None
  }

  /** A fetched batch holds exactly the logs the range queries answered. */
  lemma {:induction false} FetchAllMembers(getLogs: Range -> Option<seq<Log>>, ranges: seq<Range>, l: Log)
    requires FetchAll(getLogs, ranges).Some?
    ensures l in FetchAll(getLogs, ranges).value <==>
              exists i :: 0 <= i < |ranges| && getLogs(ranges[i]).Some? && l in getLogs(ranges[i]).value
    decreases |ranges|
  {
    if ranges != [] {
      FetchAllMembers(getLogs, ranges[1..], l);
      assert forall i :: 1 <= i < |ranges| ==> ranges[i] == ranges[1..][i - 1];
      if l in FetchAll(getLogs, ranges[1..]).value {
        var i :| 0 <= i < |ranges| - 1 && getLogs(ranges[1..][i]).Some? && l in getLogs(ranges[1..][i]).value;
        assert ranges[i + 1] == ranges[1..][i];
      }
    }
  }

  /** Fetching two lists of ranges in turn is fetching their concatenation:
      the logs of the first list come before those of the second. */
  lemma {:induction false} FetchAllAppend(getLogs: Range -> Option<seq<Log>>, xs: seq<Range>, ys: seq<Range>)
    ensures FetchAll(getLogs, xs + ys).Some? <==> FetchAll(getLogs, xs).Some? && FetchAll(getLogs, ys).Some?
    ensures FetchAll(getLogs, xs + ys).Some? ==>
              FetchAll(getLogs, xs + ys).value == FetchAll(getLogs, xs).value + FetchAll(getLogs, ys).value
    decreases |xs|
  {
    if xs == [] {
      assert xs + ys == ys;
    } else {
      var zs := xs + ys;
      assert zs[0] == xs[0] && zs[1..] == xs[1..] + ys;
      FetchAllAppend(getLogs, xs[1..], ys);
      match getLogs(xs[0]) {
        case None =>
        case Some(first) =>
          if FetchAll(getLogs, xs[1..]).Some? && FetchAll(getLogs, ys).Some? {
            var tail, rest := FetchAll(getLogs, xs[1..]).value, FetchAll(getLogs, ys).value;
            assert first + (tail + rest) == (first + tail) + rest;
          }
      }
    }
  }

  // ---------------------------------------------------------------------
  // Folding logs into the book

  /** The timestamp a successful `getBlock(n)` reports (0 stands in for a
      rejected call, which ends the run before the value is used). */
  function TimeOf(getBlock: nat -> Option<nat>, n: nat): nat {
    match getBlock(n)
    case Some(t) => t
    case None => 0
  }

  /** Every log's block can be fetched. */
  predicate Resolved(logs: seq<Log>, getBlock: nat -> Option<nat>) {
    forall i :: 0 <= i < |logs| ==> getBlock(logs[i].blockNumber).Some?
  }

  /** The claim assignment one log performs. */
  function ClaimWrite(log: Log, timestamp: nat): Write<Claim> {
    Write(log.address, log.root, Claim(log.txHash, log.blockNumber, timestamp))
  }

  /** The claim assignments of a batch, in log order. */
  function Writes(logs: seq<Log>, getBlock: nat -> Option<nat>): (ws: seq<Write<Claim>>)
    ensures |ws| == |logs|
    ensures forall i :: 0 <= i < |logs| ==> ws[i] == ClaimWrite(logs[i], TimeOf(getBlock, logs[i].blockNumber))
  {
    seq(|logs|, i requires 0 <= i < |logs| => ClaimWrite(logs[i], TimeOf(getBlock, logs[i].blockNumber)))
  }

  /** The high-water timestamp after the batch, starting from `start`. */
  function HighWater(start: nat, logs: seq<Log>, getBlock: nat -> Option<nat>): (h: nat)
    ensures h >= start
    ensures forall i :: 0 <= i < |logs| ==> h >= TimeOf(getBlock, logs[i].blockNumber)
    ensures h == start || exists i :: 0 <= i < |logs| && h == TimeOf(getBlock, logs[i].blockNumber)
    decreases |logs|
  {
    if logs == [] then start
    else
      var init := logs[..|logs| - 1];
      var h0 := HighWater(start, init, getBlock);
      assert forall i :: 0 <= i < |init| ==> init[i] == logs[i];
      Max(h0, TimeOf(getBlock, logs[|logs| - 1].blockNumber))
  }

  /** The block numbers a batch mentions. */
  function BlockNumbers(logs: seq<Log>): set<nat> {
    set i | 0 <= i < |logs| :: logs[i].blockNumber
  }

  predicate NoDup(s: seq<nat>) {
    forall i, j :: 0 <= i < j < |s| ==> s[i] != s[j]
  }

  lemma BlockNumbersSnoc(logs: seq<Log>, log: Log)
    ensures BlockNumbers(logs + [log]) == BlockNumbers(logs) + {log.blockNumber}
  {
    var xs := logs + [log];
    forall b ensures b in BlockNumbers(xs) <==> b in BlockNumbers(logs) + {log.blockNumber} {
      if b in BlockNumbers(xs) {
        var i :| 0 <= i < |xs| && xs[i].blockNumber == b;
        if i < |logs| { assert logs[i] == xs[i]; }
      }
      if b in BlockNumbers(logs) {
        var i :| 0 <= i < |logs| && logs[i].blockNumber == b;
        assert xs[i] == logs[i];
      }
      if b == log.blockNumber {
        assert xs[|logs|] == log;
      }
    }
  }

  /** How the spec functions of the ingestion loop extend by one log. */
  lemma IngestSnoc(tournaments: Book<Claim>, start: nat, logs: seq<Log>, i: nat, getBlock: nat -> Option<nat>)
    requires i < |logs|
    ensures Writes(logs[..i + 1], getBlock) == Writes(logs[..i], getBlock) + [ClaimWrite(logs[i], TimeOf(getBlock, logs[i].blockNumber))]
    ensures Fold(tournaments, Writes(logs[..i + 1], getBlock)) ==
            Upsert(Fold(tournaments, Writes(logs[..i], getBlock)), ClaimWrite(logs[i], TimeOf(getBlock, logs[i].blockNumber)))
    ensures Targets(Writes(logs[..i + 1], getBlock)) == Targets(Writes(logs[..i], getBlock)) + [logs[i].address]
    ensures HighWater(start, logs[..i + 1], getBlock) == Max(HighWater(start, logs[..i], getBlock), TimeOf(getBlock, logs[i].blockNumber))
    ensures BlockNumbers(logs[..i + 1]) == BlockNumbers(logs[..i]) + {logs[i].blockNumber}
    ensures Resolved(logs[..i + 1], getBlock) <==> Resolved(logs[..i], getBlock) && getBlock(logs[i].blockNumber).Some?
  {
    var xs := logs[..i + 1];
    assert xs == logs[..i] + [logs[i]];
    assert xs[..i] == logs[..i];
    BlockNumbersSnoc(logs[..i], logs[i]);
    var ws := Writes(xs, getBlock);
    assert ws == Writes(logs[..i], getBlock) + [ClaimWrite(logs[i], TimeOf(getBlock, logs[i].blockNumber))];
    assert ws[..i] == Writes(logs[..i], getBlock);
  }

  /** The state of the ingestion loop after the logs `logs`: all their blocks
      resolved, and book, `toVerify` and high-water mark as the spec functions
      give them. */
  predicate Ingested(tournaments: Book<Claim>, start: nat, logs: seq<Log>, getBlock: nat -> Option<nat>,
                     book: Book<Claim>, toVerify: seq<Address>, high: nat)
  {
    && Resolved(logs, getBlock)
    && book == Fold(tournaments, Writes(logs, getBlock))
    && toVerify == Targets(Writes(logs, getBlock))
    && high == HighWater(start, logs, getBlock)
  }

  /** One iteration of the ingestion loop keeps `Ingested`. */
  lemma IngestStep(tournaments: Book<Claim>, start: nat, logs: seq<Log>, i: nat, getBlock: nat -> Option<nat>,
                   book: Book<Claim>, toVerify: seq<Address>, high: nat, timestamp: nat)
    requires i < |logs|
    requires Ingested(tournaments, start, logs[..i], getBlock, book, toVerify, high)
    requires getBlock(logs[i].blockNumber) == Some(timestamp)
    ensures Ingested(tournaments, start, logs[..i + 1], getBlock,
                     Upsert(book, ClaimWrite(logs[i], timestamp)), toVerify + [logs[i].address], Max(high, timestamp))
    ensures BlockNumbers(logs[..i + 1]) == BlockNumbers(logs[..i]) + {logs[i].blockNumber}
  {
    IngestSnoc(tournaments, start, logs, i, getBlock);
  }

  lemma PrefixBlockNumbers(logs: seq<Log>, i: nat)
    requires i <= |logs|
    ensures BlockNumbers(logs[..i]) <= BlockNumbers(logs)
  {
    forall b | b in BlockNumbers(logs[..i]) ensures b in BlockNumbers(logs) {
      var k :| 0 <= k < i && logs[..i][k].blockNumber == b;
      assert logs[k].blockNumber == b;
    }
  }

  /** The block cache holds only answers `getBlock` gave. */
  predicate CacheAgrees(blockCache: map<nat, nat>, getBlock: nat -> Option<nat>) {
    forall b :: b in blockCache ==> getBlock(b) == Some(blockCache[b])
  }

  /** `fetched` lists the block numbers asked of the client, each once, and
      they are exactly the keys of `blockCache`, which are the block numbers
      `seen` so far. */
  ghost predicate Fetched(fetched: seq<nat>, blockCache: map<nat, nat>, seen: set<nat>) {
    && blockCache.Keys == seen
    && NoDup(fetched)
    && (forall b :: b in fetched <==> b in blockCache)
  }

  /** A cache lookup of block `n` keeps `Fetched`: a miss appends `n`. */
  lemma FetchStep(fetched: seq<nat>, blockCache: map<nat, nat>, seen: set<nat>, n: nat, v: nat)
    requires Fetched(fetched, blockCache, seen)
    ensures n in blockCache ==> Fetched(fetched, blockCache[n := v], seen + {n})
    ensures n !in blockCache ==> Fetched(fetched + [n], blockCache[n := v], seen + {n})
  {
    if n !in blockCache {
      var f := fetched + [n];
      forall i, j | 0 <= i < j < |f| ensures f[i] != f[j] {
        if j == |fetched| {
          assert f[i] == fetched[i];
          assert fetched[i] in blockCache;
        } else {
          assert f[i] == fetched[i] && f[j] == fetched[j];
        }
      }
    }
  }

  /** When the lookup of log `i` fails, every block asked for so far belongs
      to some log. */
  lemma FetchFails(logs: seq<Log>, i: nat, fetched: seq<nat>, seen: set<nat>)
    requires i < |logs|
    requires seen == BlockNumbers(logs[..i])
    requires forall b :: b in fetched ==> b in seen + {logs[i].blockNumber}
    ensures forall b :: b in fetched ==> b in BlockNumbers(logs)
  {
    PrefixBlockNumbers(logs, i);
    assert logs[i].blockNumber in BlockNumbers(logs);
  }

  /** `blockCache.get(n)`, and on a miss `getBlock(n)` stored into the cache
      (lines 62-66); `called` says whether the client was asked. */
  method CachedBlock(blockCache: map<nat, nat>, getBlock: nat -> Option<nat>, n: nat)
    returns (block: Option<nat>, cache: map<nat, nat>, called: bool)
    requires CacheAgrees(blockCache, getBlock)
    ensures block == getBlock(n)
    ensures called <==> n !in blockCache
    ensures block.Some? ==> cache == blockCache[n := block.value]
    ensures CacheAgrees(cache, getBlock)
  {
    cache := blockCache;
    if n in blockCache {
      block, called := Some(blockCache[n]), false;
    } else {
      block, called := getBlock(n), true;
      if block.Some? {
        cache := blockCache[n := block.value];
      }
    }
  }

  /** The first loop of `checkForEvent` (lines 61-82): for each log, take the
      block from `blockCache` or fetch it, raise the high-water timestamp,
      push the tournament onto `toVerify` and set its claim. `fetched` lists
      the `getBlock` calls made, in order: one per distinct block number. */
  method IngestLogs(tournaments: Book<Claim>, lastTimestamp: nat, logs: seq<Log>, getBlock: nat -> Option<nat>)
    returns (ok: bool, book: Book<Claim>, toVerify: seq<Address>, high: nat, fetched: seq<nat>)
    ensures ok <==> Resolved(logs, getBlock)
    ensures ok ==> book == Fold(tournaments, Writes(logs, getBlock))
    ensures ok ==> toVerify == Targets(Writes(logs, getBlock))
    ensures ok ==> high == HighWater(lastTimestamp, logs, getBlock)
    ensures NoDup(fetched)
    ensures forall b :: b in fetched ==> b in BlockNumbers(logs)
    ensures ok ==> forall b :: b in BlockNumbers(logs) ==> b in fetched
    ensures !ok ==> fetched != [] && getBlock(fetched[|fetched| - 1]).None?
  {
    book, toVerify, high, fetched := tournaments, [], lastTimestamp, [];
    var blockCache: map<nat, nat> := map[];
    var i := 0;
    while i < |logs|
      invariant 0 <= i <= |logs|
      invariant Ingested(tournaments, lastTimestamp, logs[..i], getBlock, book, toVerify, high)
      invariant Fetched(fetched, blockCache, BlockNumbers(logs[..i]))
      invariant CacheAgrees(blockCache, getBlock)
    {
      var log := logs[i];
      var block, cache, called := CachedBlock(blockCache, getBlock, log.blockNumber);
      ghost var seen := BlockNumbers(logs[..i]);
      FetchStep(fetched, blockCache, seen, log.blockNumber, if block.Some? then block.value else 0);
      if called {
        fetched := fetched + [log.blockNumber];
      }
      if block.None? {
        ok := false;
        FetchFails(logs, i, fetched, seen);
        return;
      }
      blockCache := cache;
      var timestamp := block.value;
      IngestStep(tournaments, lastTimestamp, logs, i, getBlock, book, toVerify, high, timestamp);
      if timestamp > high {
        high := timestamp;
      }
      toVerify := toVerify + [log.address];
      book := Upsert(book, ClaimWrite(log, timestamp));
      i := i + 1;
    }
    assert logs[..i] == logs;
    ok := true;
  }

  // ---------------------------------------------------------------------
  // Dispute alerts

  /** The claims of a tournament as the message lists them: every own
      property name of `claims`, in insertion order, with its tx and block. */
  function Listing(claims: OMap<Root, Claim>): (r: seq<Listed>)
    ensures |r| == |claims.keys|
    ensures forall i :: 0 <= i < |r| ==>
              && r[i].root == claims.keys[i]
              && r[i].tx == claims.values[claims.keys[i]].tx
              && r[i].blockNumber == claims.values[claims.keys[i]].blockNumber
  {
    seq(|claims.keys|, i requires 0 <= i < |claims.keys| =>
      var c := claims.values[claims.keys[i]];
      Listed(claims.keys[i], c.tx, c.blockNumber))
  }

  function DisputeAlert(t: Tournament<Claim>): Alert {
    Dispute(t.address, Listing(t.claims))
  }

  /** Awaiting `notifyDiscord` on each alert in turn: a failed delivery exits
      the process, so the alerts handed over are a prefix ending with the
      failed one, and the run fails. `deliver(k)` is the outcome of the run's
      `k`-th webhook call (from 0), whatever message it carries: the same
      message may be delivered once and fail the next time. */
  function Dispatch(alerts: seq<Alert>, deliver: nat -> bool): (r: (seq<Alert>, bool))
    ensures r.0 <= alerts
    ensures r.1 <==> forall i :: 0 <= i < |alerts| ==> deliver(i)
    ensures r.1 ==> r.0 == alerts
    ensures !r.1 ==> r.0 != [] && !deliver(|r.0| - 1) &&
                     forall i :: 0 <= i < |r.0| - 1 ==> deliver(i)
    decreases |alerts|
  {
    if alerts == [] then ([], true)
    else
      var init := alerts[..|alerts| - 1];
      var prev := Dispatch(init, deliver);
      assert forall i :: 0 <= i < |init| ==> init[i] == alerts[i];
      if !prev.1 then
        assert prev.0 <= init <= alerts;
        prev
      else
        assert prev.0 == init && init + [alerts[|alerts| - 1]] == alerts;
        (alerts, deliver(|alerts| - 1))
  }

  /** Once a delivery has failed, later alerts are never handed over. */
  lemma {:induction false} DispatchStops(xs: seq<Alert>, ys: seq<Alert>, deliver: nat -> bool)
    requires !Dispatch(xs, deliver).1
    ensures Dispatch(xs + ys, deliver) == Dispatch(xs, deliver)
    decreases |ys|
  {
    if ys == [] {
      assert xs + ys == xs;
    } else {
      assert (xs + ys)[..|xs + ys| - 1] == xs + ys[..|ys| - 1];
      DispatchStops(xs, ys[..|ys| - 1], deliver);
    }
  }

  /** Two copies of one message: the first call succeeds, the second fails,
      and the run fails having handed over both. */
  lemma RepeatedAlertCanFail(m: Alert)
    ensures Dispatch([m, m], k => k == 0) == ([m, m], false)
  {
    var d: nat -> bool := k => k == 0;
    assert [m, m][..1] == [m];
    assert [m][..0] == [];
    assert Dispatch([], d) == ([], true);
    assert Dispatch([m], d) == ([m], true);
    assert !d(1) && [m, m][1] == m && [m] + [m] == [m, m];
  }

  /** One iteration of the dispute loop: the alert for entry `i` is handed
      over exactly when its tournament is disputed. */
  lemma NotifyStep(book: Book<Claim>, toVerify: seq<Address>, i: nat, deliver: nat -> bool, sent: seq<Alert>)
    requires i < |toVerify|
    requires (sent, true) == Dispatch(Messages(book, Flagged(book, toVerify[..i]), DisputeAlert), deliver)
    ensures Disputed(book, toVerify[i]) ==>
              var msg := DisputeAlert(book[toVerify[i]]);
              Dispatch(Messages(book, Flagged(book, toVerify[..i + 1]), DisputeAlert), deliver) == (sent + [msg], deliver(|sent|))
    ensures !Disputed(book, toVerify[i]) ==>
              Dispatch(Messages(book, Flagged(book, toVerify[..i + 1]), DisputeAlert), deliver) == (sent, true)
  {
    var a := toVerify[i];
    assert toVerify[..i + 1] == toVerify[..i] + [a];
    FlaggedAppend(book, toVerify[..i], [a]);
    var before := Messages(book, Flagged(book, toVerify[..i]), DisputeAlert);
    MessagesAppend(book, Flagged(book, toVerify[..i]), Flagged(book, [a]), DisputeAlert);
    if Disputed(book, a) {
      var msg := DisputeAlert(book[a]);
      var after := Messages(book, Flagged(book, toVerify[..i + 1]), DisputeAlert);
      assert Flagged(book, [a]) == [a];
      assert Messages(book, [a], DisputeAlert) == [msg];
      assert after == before + [msg];
      assert after[..|after| - 1] == before && after[|after| - 1] == msg;
      assert Dispatch(before, deliver).0 == before && |before| == |sent|;
      assert Dispatch(after, deliver) == (after, deliver(|after| - 1));
    } else {
      assert Flagged(book, [a]) == [];
      assert before + [] == before;
    }
  }

  /** After a failed delivery at entry `i - 1`, the rest of `toVerify` adds
      nothing: the whole plan dispatches as its prefix did. */
  lemma NotifyStops(book: Book<Claim>, toVerify: seq<Address>, i: nat, deliver: nat -> bool)
    requires i <= |toVerify|
    requires !Dispatch(Messages(book, Flagged(book, toVerify[..i]), DisputeAlert), deliver).1
    ensures Dispatch(Messages(book, Flagged(book, toVerify), DisputeAlert), deliver) ==
            Dispatch(Messages(book, Flagged(book, toVerify[..i]), DisputeAlert), deliver)
  {
    assert toVerify == toVerify[..i] + toVerify[i..];
    FlaggedAppend(book, toVerify[..i], toVerify[i..]);
    MessagesAppend(book, Flagged(book, toVerify[..i]), Flagged(book, toVerify[i..]), DisputeAlert);
    DispatchStops(Messages(book, Flagged(book, toVerify[..i]), DisputeAlert), Messages(book, Flagged(book, toVerify[i..]), DisputeAlert), deliver);
  }

  /** The second loop of `checkForEvent` (lines 84-96): for every `toVerify`
      entry whose tournament now has more than one claim, build the message
      and await its delivery. */
  method NotifyDisputes(book: Book<Claim>, toVerify: seq<Address>, deliver: nat -> bool)
    returns (sent: seq<Alert>, ok: bool)
    ensures (sent, ok) == Dispatch(Messages(book, Flagged(book, toVerify), DisputeAlert), deliver)
  {
    sent := [];
    var i := 0;
    while i < |toVerify|
      invariant 0 <= i <= |toVerify|
      invariant (sent, true) == Dispatch(Messages(book, Flagged(book, toVerify[..i]), DisputeAlert), deliver)
    {
      var a := toVerify[i];
      NotifyStep(book, toVerify, i, deliver, sent);
      if a in book && Size(book[a].claims) > 1 {
        var msg := DisputeAlert(book[a]);
        var delivered := deliver(|sent|);
        sent := sent + [msg];
        if !delivered {
          ok := false;
          NotifyStops(book, toVerify, i + 1, deliver);
          return;
        }
      }
      i := i + 1;
    }
    assert toVerify[..i] == toVerify;
    ok := true;
  }

  // ---------------------------------------------------------------------
  // One run of checkForEvent

  /** `BigInt(data.lastTimestamp || 0)` */
  function StoredTimestamp(data: Doc): nat {
    match data.lastTimestamp
    case Some(t) => t
    case None => 0
  }

  /** The logs of every planned range, once the tip is known. */
  function RunLogs(data: Doc, client: Client, batchBlock: nat): Option<seq<Log>>
    requires batchBlock >= 1 && client.blockNumber.Some?
  {
    FetchAll(client.getLogs, Ranges(data.lastProcessedBlock, client.blockNumber.value, batchBlock))
  }

  /** Reference definition of one run of `checkForEvent`. */
  function Run(stored: Option<Doc>, client: Client, batchBlock: nat, deliver: nat -> bool): Outcome
    requires batchBlock >= 1
  {
    if stored.None? then Outcome([], Failed(StateUnreadable))
    else if client.blockNumber.None? then Outcome([], Failed(TipUnavailable))
    else
      var data := stored.value;
      var currentBlock := client.blockNumber.value;
      var fetchedLogs := RunLogs(data, client, batchBlock);
      if fetchedLogs.None? then Outcome([], Failed(LogsUnavailable))
      else
        var logs := fetchedLogs.value;
        if !Resolved(logs, client.getBlock) then Outcome([], Failed(BlockUnavailable))
        else
          var ws := Writes(logs, client.getBlock);
          var book := Fold(data.tournaments, ws);
          var (sent, ok) := Dispatch(Messages(book, Flagged(book, Targets(ws)), DisputeAlert), deliver);
          if !ok then Outcome(sent, Failed(DeliveryFailed))
          else
            var high := HighWater(StoredTimestamp(data), logs, client.getBlock);
            Outcome(sent, Committed(Doc(currentBlock, Some(high), book)))
  }

  /** `checkForEvent()`: the steps of the run in source order. `fetched` is
      the sequence of `getBlock` calls: no block number twice, only blocks
      of the run's logs, all of them when the run commits, and the failed
      lookup last when a block cannot be fetched. */
  method CheckForEvent(stored: Option<Doc>, client: Client, batchBlock: nat, deliver: nat -> bool)
    returns (out: Outcome, fetched: seq<nat>)
    requires batchBlock >= 1
    ensures out == Run(stored, client, batchBlock, deliver)
    ensures NoDup(fetched)
    ensures stored.None? || client.blockNumber.None? ==> fetched == []
    ensures stored.Some? && client.blockNumber.Some? ==>
              match RunLogs(stored.value, client, batchBlock)
              case None => fetched == []
              case Some(logs) =>
                && (forall b :: b in fetched ==> b in BlockNumbers(logs))
                && (out.result.Committed? ==> forall b :: b in BlockNumbers(logs) ==> b in fetched)
    ensures out.result == Failed(BlockUnavailable) ==>
              fetched != [] && client.getBlock(fetched[|fetched| - 1]).None?
  {
    fetched := [];
    if stored.None? {
      return Outcome([], Failed(StateUnreadable)), fetched;
    }
    var data := stored.value;
    if client.blockNumber.None? {
      return Outcome([], Failed(TipUnavailable)), fetched;
    }
    var currentBlock := client.blockNumber.value;
    var blockRanges := GetBlockRanges(data.lastProcessedBlock, currentBlock, batchBlock);
    var arrayOfLogs := FetchAll(client.getLogs, blockRanges);
    if arrayOfLogs.None? {
      return Outcome([], Failed(LogsUnavailable)), fetched;
    }
    var logs := arrayOfLogs.value;
    var lastTimestamp := StoredTimestamp(data);
    var book := data.tournaments;
    var sent: seq<Alert> := [];
    if |logs| > 0 {
      var ok, toVerify;
      ok, book, toVerify, lastTimestamp, fetched := IngestLogs(data.tournaments, lastTimestamp, logs, client.getBlock);
      if !ok {
        return Outcome([], Failed(BlockUnavailable)), fetched;
      }
      sent, ok := NotifyDisputes(book, toVerify, deliver);
      if !ok {
        return Outcome(sent, Failed(DeliveryFailed)), fetched;
      }
    } else {
      assert Writes(logs, client.getBlock) == [];
      assert Flagged(book, Targets(Writes(logs, client.getBlock))) == [];
    }
    out := Outcome(sent, Committed(Doc(currentBlock, Some(lastTimestamp), book)));
  }

  // ---------------------------------------------------------------------
  // Properties of a run

  /** What a committed run writes back: the tip as the new cursor (below the
      stored one when the tip is behind it), a timestamp no lower than the
      stored one, every stored tournament with its claims still listed in
      the same order, and new tournaments only for addresses the batch
      logged. */
  lemma RunCommitted(stored: Option<Doc>, client: Client, batchBlock: nat, deliver: nat -> bool)
    requires batchBlock >= 1
    requires Run(stored, client, batchBlock, deliver).result.Committed?
    ensures stored.Some? && client.blockNumber.Some?
    ensures RunLogs(stored.value, client, batchBlock).Some?
    ensures var doc := Run(stored, client, batchBlock, deliver).result.doc;
      var prev := stored.value;
      var logs := RunLogs(prev, client, batchBlock).value;
      && doc.lastProcessedBlock == client.blockNumber.value
      && doc.lastTimestamp.Some? && doc.lastTimestamp.value >= StoredTimestamp(prev)
      && (forall a :: a in prev.tournaments ==>
            a in doc.tournaments && doc.tournaments[a].address == prev.tournaments[a].address &&
            prev.tournaments[a].claims.keys <= doc.tournaments[a].claims.keys)
      && (forall a :: a in doc.tournaments && a !in prev.tournaments ==>
            doc.tournaments[a].address == a && exists j :: 0 <= j < |logs| && logs[j].address == a)
  {
    CommittedShape(stored, client, batchBlock, deliver);
    var data := stored.value;
    BookGrows(data.tournaments, RunLogs(data, client, batchBlock).value, client.getBlock);
  }

  /** Every alert of a committed run was delivered and lists every claim of
      a tournament holding more than one; when each stored tournament records
      its own address, so does the written book, and each alert names a
      disputed tournament of it. */
  lemma RunAlerts(stored: Option<Doc>, client: Client, batchBlock: nat, deliver: nat -> bool)
    requires batchBlock >= 1
    requires Run(stored, client, batchBlock, deliver).result.Committed?
    ensures stored.Some?
    ensures var out := Run(stored, client, batchBlock, deliver);
      var doc := out.result.doc;
      && (forall i :: 0 <= i < |out.sent| ==>
            deliver(i) && out.sent[i].Dispute? && |out.sent[i].claims| > 1)
      && (Keyed(stored.value.tournaments) ==>
            && Keyed(doc.tournaments)
            && forall i :: 0 <= i < |out.sent| ==>
                 out.sent[i].Dispute? && Disputed(doc.tournaments, out.sent[i].address) &&
                 out.sent[i] == DisputeAlert(doc.tournaments[out.sent[i].address]))
  {
    CommittedShape(stored, client, batchBlock, deliver);
    var data := stored.value;
    var ws := Writes(RunLogs(data, client, batchBlock).value, client.getBlock);
    var book := Fold(data.tournaments, ws);
    var flagged := Flagged(book, Targets(ws));
    var out := Run(stored, client, batchBlock, deliver);
    assert out.sent == Messages(book, flagged, DisputeAlert) && out.result.doc.tournaments == book;
    AlertsDelivered(book, Targets(ws), deliver);
    if Keyed(data.tournaments) {
      FoldKeyed(data.tournaments, ws);
      AlertsNamed(book, Targets(ws));
    }
  }

  /** The fold keeps every stored tournament and the order of its claims,
      and adds tournaments only under addresses of the batch. */
  lemma BookGrows(tournaments: Book<Claim>, logs: seq<Log>, getBlock: nat -> Option<nat>)
    ensures var book := Fold(tournaments, Writes(logs, getBlock));
      && (forall a :: a in tournaments ==>
            a in book && book[a].address == tournaments[a].address &&
            tournaments[a].claims.keys <= book[a].claims.keys)
      && (forall a :: a in book && a !in tournaments ==>
            book[a].address == a && exists j :: 0 <= j < |logs| && logs[j].address == a)
  {
    var ws := Writes(logs, getBlock);
    var book := Fold(tournaments, ws);
    FoldGrows(tournaments, ws);
    FoldDomain(tournaments, ws);
    forall a | a in book && a !in tournaments
      ensures exists j :: 0 <= j < |logs| && logs[j].address == a
    {
      assert a in Touched(ws);
      var j :| 0 <= j < |ws| && ws[j].address == a;
      assert logs[j].address == a;
    }
  }

  /** When the dispute loop finishes, every message it sent was delivered
      and is the full listing of a tournament with more than one claim. */
  lemma AlertsDelivered(book: Book<Claim>, toVerify: seq<Address>, deliver: nat -> bool)
    requires Dispatch(Messages(book, Flagged(book, toVerify), DisputeAlert), deliver).1
    ensures var flagged := Flagged(book, toVerify);
      var sent := Messages(book, flagged, DisputeAlert);
      && |sent| == |flagged|
      && forall i :: 0 <= i < |sent| ==>
           deliver(i) && Disputed(book, flagged[i]) && sent[i] == DisputeAlert(book[flagged[i]]) &&
           |sent[i].claims| > 1
  {
    var flagged := Flagged(book, toVerify);
    assert forall i :: 0 <= i < |flagged| ==> flagged[i] in flagged;
    MessagesEach(book, flagged, DisputeAlert);
    var sent := Messages(book, flagged, DisputeAlert);
    forall i | 0 <= i < |sent|
      ensures Disputed(book, flagged[i]) && sent[i] == DisputeAlert(book[flagged[i]]) && |sent[i].claims| > 1
    {
      var t := book[flagged[i]];
      assert sent[i] == DisputeAlert(t);
      assert Size(t.claims) == |t.claims.keys|;
      assert |Listing(t.claims)| == |t.claims.keys|;
    }
  }

  /** In a consistent book each dispute message names a disputed tournament
      and is that tournament's full listing. */
  lemma AlertsNamed(book: Book<Claim>, toVerify: seq<Address>)
    requires Keyed(book)
    ensures var sent := Messages(book, Flagged(book, toVerify), DisputeAlert);
      forall i :: 0 <= i < |sent| ==>
        sent[i].Dispute? && Disputed(book, sent[i].address) && sent[i] == DisputeAlert(book[sent[i].address])
  {
    var flagged := Flagged(book, toVerify);
    assert forall i :: 0 <= i < |flagged| ==> flagged[i] in flagged;
    MessagesEach(book, flagged, DisputeAlert);
    var sent := Messages(book, flagged, DisputeAlert);
    forall i | 0 <= i < |sent|
      ensures sent[i].Dispute? && Disputed(book, sent[i].address) && sent[i] == DisputeAlert(book[sent[i].address])
    {
      assert sent[i] == DisputeAlert(book[flagged[i]]);
      assert sent[i].address == flagged[i];
    }
  }

  /** A committed run, spelled out: the batch resolved, every alert of the
      plan was delivered, and the document written holds the folded book. */
  lemma CommittedShape(stored: Option<Doc>, client: Client, batchBlock: nat, deliver: nat -> bool)
    requires batchBlock >= 1
    requires Run(stored, client, batchBlock, deliver).result.Committed?
    ensures stored.Some? && client.blockNumber.Some?
    ensures RunLogs(stored.value, client, batchBlock).Some?
    ensures var logs := RunLogs(stored.value, client, batchBlock).value;
      var ws := Writes(logs, client.getBlock);
      var book := Fold(stored.value.tournaments, ws);
      var alerts := Messages(book, Flagged(book, Targets(ws)), DisputeAlert);
      && Resolved(logs, client.getBlock)
      && Dispatch(alerts, deliver) == (alerts, true)
      && Run(stored, client, batchBlock, deliver) ==
         Outcome(alerts, Committed(Doc(client.blockNumber.value,
                                       Some(HighWater(StoredTimestamp(stored.value), logs, client.getBlock)), book)))
  {
  }

  /** A run that fails writes nothing; it has sent alerts only when a
      delivery failed, and then the last one sent is the failed one. */
  lemma RunFailed(stored: Option<Doc>, client: Client, batchBlock: nat, deliver: nat -> bool)
    requires batchBlock >= 1
    requires Run(stored, client, batchBlock, deliver).result.Failed?
    ensures var out := Run(stored, client, batchBlock, deliver);
      && (out.result.failure == StateUnreadable <==> stored.None?)
      && (out.result.failure != DeliveryFailed ==> out.sent == [])
      && (out.result.failure == DeliveryFailed ==>
            out.sent != [] && !deliver(|out.sent| - 1) &&
            forall i :: 0 <= i < |out.sent| - 1 ==> deliver(i))
  {
    if stored.Some? && client.blockNumber.Some? {
      var data := stored.value;
      var fetched := RunLogs(data, client, batchBlock);
      if fetched.Some? && Resolved(fetched.value, client.getBlock) {
        var ws := Writes(fetched.value, client.getBlock);
        var book := Fold(data.tournaments, ws);
        var dispatched := Dispatch(Messages(book, Flagged(book, Targets(ws)), DisputeAlert), deliver);
        var out := Run(stored, client, batchBlock, deliver);
        assert out.sent == dispatched.0 && !dispatched.1 && out.result.failure == DeliveryFailed;
        assert dispatched.0 != [] && !deliver(|dispatched.0| - 1);
      }
    }
  }

  /** With the cursor at or past the tip no range is planned: the run sends
      nothing and writes the stored book back with the tip as cursor and
      the stored timestamp (0 when there was none). */
  lemma NothingNew(data: Doc, client: Client, batchBlock: nat, deliver: nat -> bool)
    requires batchBlock >= 1
    requires client.blockNumber.Some? && data.lastProcessedBlock >= client.blockNumber.value
    ensures Run(Some(data), client, batchBlock, deliver) ==
            Outcome([], Committed(Doc(client.blockNumber.value, Some(StoredTimestamp(data)), data.tournaments)))
  {
    RangesShape(data.lastProcessedBlock, client.blockNumber.value, batchBlock);
    var logs: seq<Log> := [];
    assert RunLogs(data, client, batchBlock) == Some(logs);
    assert Writes(logs, client.getBlock) == [];
    assert Targets(Writes(logs, client.getBlock)) == [];
  }

  /** After a committed run every claim written by the batch holds the value
      of the last log for its tournament and root, with that log's block
      timestamp; claims the batch did not write keep their stored value. */
  lemma RunClaims(data: Doc, client: Client, batchBlock: nat, deliver: nat -> bool, a: Address, r: Root)
    requires batchBlock >= 1
    requires Run(Some(data), client, batchBlock, deliver).result.Committed?
    ensures client.blockNumber.Some? && RunLogs(data, client, batchBlock).Some?
    ensures var logs := RunLogs(data, client, batchBlock).value;
      var book := Run(Some(data), client, batchBlock, deliver).result.doc.tournaments;
      && (forall j :: (0 <= j < |logs| && logs[j].address == a && logs[j].root == r &&
                      (forall k :: j < k < |logs| ==> logs[k].address != a || logs[k].root != r)) ==>
              Lookup(book, a, r) == Some(Claim(logs[j].txHash, logs[j].blockNumber, TimeOf(client.getBlock, logs[j].blockNumber))))
      && ((forall k :: 0 <= k < |logs| ==> logs[k].address != a || logs[k].root != r) ==>
            Lookup(book, a, r) == Lookup(data.tournaments, a, r))
  {
    CommittedShape(Some(data), client, batchBlock, deliver);
    ClaimsAfter(data.tournaments, RunLogs(data, client, batchBlock).value, client.getBlock, a, r);
  }

  /** The claim at `(a, r)` after folding a batch: the last log there wins,
      and a claim no log writes keeps its stored value. */
  lemma ClaimsAfter(tournaments: Book<Claim>, logs: seq<Log>, getBlock: nat -> Option<nat>, a: Address, r: Root)
    ensures var book := Fold(tournaments, Writes(logs, getBlock));
      && (forall j :: (0 <= j < |logs| && logs[j].address == a && logs[j].root == r &&
                      (forall k :: j < k < |logs| ==> logs[k].address != a || logs[k].root != r)) ==>
              Lookup(book, a, r) == Some(Claim(logs[j].txHash, logs[j].blockNumber, TimeOf(getBlock, logs[j].blockNumber))))
      && ((forall k :: 0 <= k < |logs| ==> logs[k].address != a || logs[k].root != r) ==>
            Lookup(book, a, r) == Lookup(tournaments, a, r))
  {
    var ws := Writes(logs, getBlock);
    forall j | 0 <= j < |logs| && logs[j].address == a && logs[j].root == r &&
               (forall k :: j < k < |logs| ==> logs[k].address != a || logs[k].root != r)
      ensures Lookup(Fold(tournaments, ws), a, r) ==
              Some(Claim(logs[j].txHash, logs[j].blockNumber, TimeOf(getBlock, logs[j].blockNumber)))
    {
      assert forall k :: j < k < |ws| ==> !Hits(ws[k], ws[j].address, ws[j].root);
      LastWriterWins(tournaments, ws, j);
    }
    if forall k :: 0 <= k < |logs| ==> logs[k].address != a || logs[k].root != r {
      assert forall k :: 0 <= k < |ws| ==> !Hits(ws[k], a, r);
      UnwrittenClaimKept(tournaments, ws, a, r);
    }
  }

  /** The dispute alerts of a committed run: one per log whose tournament
      ends the batch with more than one claim, in log order, so a tournament
      logged k times in the batch alerts k times and an undisputed one never. */
  lemma RunAlertCount(data: Doc, client: Client, batchBlock: nat, deliver: nat -> bool, a: Address)
    requires batchBlock >= 1
    requires Keyed(data.tournaments)
    requires Run(Some(data), client, batchBlock, deliver).result.Committed?
    ensures client.blockNumber.Some? && RunLogs(data, client, batchBlock).Some?
    ensures var logs := RunLogs(data, client, batchBlock).value;
      var out := Run(Some(data), client, batchBlock, deliver);
      var book := out.result.doc.tournaments;
      |set i | 0 <= i < |out.sent| && out.sent[i].Dispute? && out.sent[i].address == a| ==
        if Disputed(book, a) then |set j | 0 <= j < |logs| && logs[j].address == a| else 0
  {
    CommittedShape(Some(data), client, batchBlock, deliver);
    var logs := RunLogs(data, client, batchBlock).value;
    var ws := Writes(logs, client.getBlock);
    var targets := Targets(ws);
    FoldKeyed(data.tournaments, ws);
    AlertCount(Fold(data.tournaments, ws), targets, a);
    LogPositions(logs, client.getBlock, a);
  }

  lemma LogPositions(logs: seq<Log>, getBlock: nat -> Option<nat>, a: Address)
    ensures |set j | 0 <= j < |logs| && logs[j].address == a| == multiset(Targets(Writes(logs, getBlock)))[a]
  {
    var targets := Targets(Writes(logs, getBlock));
    CountPositions(targets, a);
    var xs := set j | 0 <= j < |logs| && logs[j].address == a;
    var ys := set j | 0 <= j < |targets| && targets[j] == a;
    forall j ensures j in xs <==> j in ys {
      if 0 <= j < |logs| {
        assert targets[j] == logs[j].address;
      }
    }
    assert xs == ys;
  }

  /** In a consistent book the dispute loop alerts on `a` once per entry of
      `toVerify` naming it if `a` is disputed, and never otherwise. */
  lemma AlertCount(book: Book<Claim>, toVerify: seq<Address>, a: Address)
    requires Keyed(book)
    ensures var sent := Messages(book, Flagged(book, toVerify), DisputeAlert);
      |set i | 0 <= i < |sent| && sent[i].Dispute? && sent[i].address == a| ==
        if Disputed(book, a) then multiset(toVerify)[a] else 0
  {
    var flagged := Flagged(book, toVerify);
    var sent := Messages(book, flagged, DisputeAlert);
    assert forall i :: 0 <= i < |flagged| ==> flagged[i] in flagged;
    MessagesEach(book, flagged, DisputeAlert);
    FlaggedCount(book, toVerify, a);
    CountPositions(flagged, a);
    SameAlertPositions(book, flagged, a);
  }

  /** In a consistent book the alert at position `i` names `flagged[i]`. */
  lemma SameAlertPositions(book: Book<Claim>, flagged: seq<Address>, a: Address)
    requires Keyed(book)
    requires forall i :: 0 <= i < |flagged| ==> flagged[i] in book
    ensures var sent := Messages(book, flagged, DisputeAlert);
      (set i | 0 <= i < |sent| && sent[i].Dispute? && sent[i].address == a) ==
      (set i | 0 <= i < |flagged| && flagged[i] == a)
  {
    MessagesEach(book, flagged, DisputeAlert);
    var sent := Messages(book, flagged, DisputeAlert);
    forall i | 0 <= i < |sent| ensures sent[i].Dispute? && sent[i].address == flagged[i] {
      assert sent[i] == DisputeAlert(book[flagged[i]]);
    }
  }

  /** The range plan starts at the cursor itself, so the next run queries
      the cursor block a second time whenever the previous run's last range
      reached the tip. Logs delivered again this way change neither the book
      nor the high-water timestamp. */
  lemma RefetchHarmless(tournaments: Book<Claim>, start: nat, getBlock: nat -> Option<nat>,
                        xs: seq<Log>, ys: seq<Log>, zs: seq<Log>)
    ensures Fold(Fold(tournaments, Writes(xs + ys, getBlock)), Writes(ys + zs, getBlock)) ==
            Fold(tournaments, Writes(xs + ys + zs, getBlock))
    ensures HighWater(HighWater(start, xs + ys, getBlock), ys + zs, getBlock) ==
            HighWater(start, xs + ys + zs, getBlock)
  {
    var wx, wy, wz := Writes(xs, getBlock), Writes(ys, getBlock), Writes(zs, getBlock);
    WritesAppend(xs, ys, getBlock);
    WritesAppend(ys, zs, getBlock);
    WritesAppend(xs + ys, zs, getBlock);
    assert Writes(xs + ys + zs, getBlock) == wx + wy + wz;
    FoldOverlap(tournaments, wx, wy, wz);
    HighWaterOverlap(start, getBlock, xs, ys, zs);
  }

  lemma HighWaterOverlap(start: nat, getBlock: nat -> Option<nat>, xs: seq<Log>, ys: seq<Log>, zs: seq<Log>)
    ensures HighWater(HighWater(start, xs + ys, getBlock), ys + zs, getBlock) ==
            HighWater(start, xs + ys + zs, getBlock)
  {
    var h := HighWater(start, xs + ys, getBlock);
    HighWaterAppend(h, ys, zs, getBlock);
    HighWaterAppend(start, xs + ys, zs, getBlock);
    forall i | 0 <= i < |ys| ensures h >= TimeOf(getBlock, ys[i].blockNumber) {
      assert (xs + ys)[|xs| + i] == ys[i];
    }
    HighWaterAbove(h, ys, getBlock);
  }

  lemma WritesAppend(xs: seq<Log>, ys: seq<Log>, getBlock: nat -> Option<nat>)
    ensures Writes(xs + ys, getBlock) == Writes(xs, getBlock) + Writes(ys, getBlock)
  {
  }

  /** The high-water mark over two batches is the mark over the second
      batch, started from the mark over the first. */
  lemma {:induction false} HighWaterAppend(start: nat, xs: seq<Log>, ys: seq<Log>, getBlock: nat -> Option<nat>)
    ensures HighWater(start, xs + ys, getBlock) == HighWater(HighWater(start, xs, getBlock), ys, getBlock)
    decreases |ys|
  {
    if ys == [] {
      assert xs + ys == xs;
    } else {
      assert (xs + ys)[..|xs + ys| - 1] == xs + ys[..|ys| - 1];
      HighWaterAppend(start, xs, ys[..|ys| - 1], getBlock);
    }
  }

  /** A mark already at or above every timestamp of the batch stays put. */
  lemma HighWaterAbove(h: nat, logs: seq<Log>, getBlock: nat -> Option<nat>)
    requires forall i :: 0 <= i < |logs| ==> h >= TimeOf(getBlock, logs[i].blockNumber)
    ensures HighWater(h, logs, getBlock) == h
  {
  }

  // ---------------------------------------------------------------------
  // checkBalance

  /** `balance <= MIN_BALANCE`: the floor itself already alerts. */
  predicate IsLow(balance: nat, minBalance: nat) {
    balance <= minBalance
  }

  /** `checkBalance()`: a rejected `getBalance` is logged and sends nothing. */
  function CheckBalance(balance: Option<nat>, minBalance: nat): (alert: Option<Alert>)
    ensures alert.Some? <==> balance.Some? && IsLow(balance.value, minBalance)
    ensures alert.Some? ==> alert.value == LowBalance(balance.value)
  {
    if balance.Some? && balance.value <= minBalance then Some(LowBalance(balance.value)) else None
  }

  /** The threshold is inclusive and monotone: a balance exactly at the floor
      alerts, one wei above it does not, and a lower balance alerts whenever
      a higher one does. Unconfigured, the floor is 0.1 ether. */
  lemma LowBalanceThreshold(configured: Option<nat>, balance: nat, lower: nat)
    requires lower <= balance
    ensures configured.None? ==> MinBalance(configured) == 100_000_000_000_000_000
    ensures CheckBalance(Some(MinBalance(configured)), MinBalance(configured)).Some?
    ensures CheckBalance(Some(MinBalance(configured) + 1), MinBalance(configured)).None?
    ensures CheckBalance(Some(balance), MinBalance(configured)).Some? ==>
              CheckBalance(Some(lower), MinBalance(configured)).Some?
  {
  }
}
