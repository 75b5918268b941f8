/** The earlier event monitor (`monitor.js`): one run reads the state
    document, queries the `commitmentJoined` logs from the stored cursor up
    to at most `BATCH_BLOCK` blocks further (never past the tip) in a single
    request, records each log's transaction hash under its tournament and
    root, alerts on every tournament of the batch holding more than one
    claim, and writes the window's end back as the new cursor.

    Its own `notifyDiscord` logs and swallows delivery errors, so the
    webhook cannot change the outcome of a run and is not a parameter. */
module LegacyMonitor {
  import opened Common
  import opened OrderedMap
  import opened Tournaments
  import opened BlockRanges

  /** `BATCH_BLOCK = 999n` */
  const BATCH_BLOCK: nat := 999

  /** The state document `data.json`: cursor and, per tournament, the
      transaction hash of each claim. */
  datatype Doc = Doc(lastProcessedBlock: nat, tournaments: Book<TxHash>)

  /** What the read client answers in this run; `None` is a rejected call. */
  datatype Client = Client(
    blockNumber: Option<nat>,                  // getBlockNumber()
    getLogs: Range -> Option<seq<Log>>)         // getLogs({ event, fromBlock, toBlock })

  /** A dispute message names the tournament and its number of claims. */
  datatype Alert = Dispute(address: Address, nClaims: nat)

  datatype Failure = StateUnreadable | TipUnavailable | LogsUnavailable

  datatype Result = Committed(doc: Doc) | Failed(failure: Failure)

  datatype Outcome = Outcome(sent: seq<Alert>, result: Result)

  /** The query window's end: the tip, capped at `BATCH_BLOCK` blocks past
      the cursor. */
  function Window(lastProcessedBlock: nat, tip: nat): (toBlock: nat)
    ensures toBlock <= tip && toBlock <= lastProcessedBlock + BATCH_BLOCK
    ensures toBlock == tip || toBlock == lastProcessedBlock + BATCH_BLOCK
  {
    if tip > lastProcessedBlock + BATCH_BLOCK then lastProcessedBlock + BATCH_BLOCK else tip
  }

  /** `tournament.claims[log.args.root] = log.transactionHash` */
  function TxWrite(log: Log): Write<TxHash> {
    Write(log.address, log.root, log.txHash)
  }

  function Writes(logs: seq<Log>): (ws: seq<Write<TxHash>>)
    ensures |ws| == |logs|
    ensures forall i :: 0 <= i < |logs| ==> ws[i] == TxWrite(logs[i])
  {
    seq(|logs|, i requires 0 <= i < |logs| => TxWrite(logs[i]))
  }

  /** How the fold and `toVerify` extend by one log. */
  lemma IngestStep(tournaments: Book<TxHash>, logs: seq<Log>, i: nat)
    requires i < |logs|
    ensures Fold(tournaments, Writes(logs[..i + 1])) == Upsert(Fold(tournaments, Writes(logs[..i])), TxWrite(logs[i]))
    ensures Targets(Writes(logs[..i + 1])) == Targets(Writes(logs[..i])) + [logs[i].address]
  {
    assert logs[..i + 1] == logs[..i] + [logs[i]];
    var ws := Writes(logs[..i + 1]);
    assert ws == Writes(logs[..i]) + [TxWrite(logs[i])];
    assert ws[..i] == Writes(logs[..i]);
  }

  /** The first loop (lines 63-71): fetch or create each log's tournament,
      push it onto `toVerify`, set the claim and store the tournament. */
  method IngestLogs(tournaments: Book<TxHash>, logs: seq<Log>) returns (book: Book<TxHash>, toVerify: seq<Address>)
    ensures book == Fold(tournaments, Writes(logs))
    ensures toVerify == Targets(Writes(logs))
  {
    book, toVerify := tournaments, [];
    var i := 0;
    while i < |logs|
      invariant 0 <= i <= |logs|
      invariant book == Fold(tournaments, Writes(logs[..i]))
      invariant toVerify == Targets(Writes(logs[..i]))
    {
      var log := logs[i];
      IngestStep(tournaments, logs, i);
      toVerify := toVerify + [log.address];
      book := Upsert(book, TxWrite(log));
      i := i + 1;
    }
    assert logs[..i] == logs;
  }

  /** The message for one tournament. */
  function CountAlert(t: Tournament<TxHash>): Alert {
    Dispute(t.address, Size(t.claims))
  }

  /** One iteration of the dispute loop. */
  lemma NotifyStep(book: Book<TxHash>, toVerify: seq<Address>, i: nat)
    requires i < |toVerify|
    ensures Messages(book, Flagged(book, toVerify[..i + 1]), CountAlert) ==
            Messages(book, Flagged(book, toVerify[..i]), CountAlert) +
            (if Disputed(book, toVerify[i]) then [CountAlert(book[toVerify[i]])] else [])
  {
    var a := toVerify[i];
    assert toVerify[..i + 1] == toVerify[..i] + [a];
    FlaggedAppend(book, toVerify[..i], [a]);
    MessagesAppend(book, Flagged(book, toVerify[..i]), Flagged(book, [a]), CountAlert);
    if Disputed(book, a) {
      assert Flagged(book, [a]) == [a];
    } else {
      assert Flagged(book, [a]) == [];
    }
  }

  /** The second loop (lines 72-79): every `toVerify` entry whose tournament
      holds more than one claim sends its message; the delivery's result is
      not awaited for any effect. */
  method NotifyDisputes(book: Book<TxHash>, toVerify: seq<Address>) returns (sent: seq<Alert>)
    ensures sent == Messages(book, Flagged(book, toVerify), CountAlert)
  {
    sent := [];
    var i := 0;
    while i < |toVerify|
      invariant 0 <= i <= |toVerify|
      invariant sent == Messages(book, Flagged(book, toVerify[..i]), CountAlert)
    {
      var a := toVerify[i];
      NotifyStep(book, toVerify, i);
      if a in book && Size(book[a].claims) > 1 {
        sent := sent + [CountAlert(book[a])];
      }
      i := i + 1;
    }
    assert toVerify[..i] == toVerify;
  }

  /** Reference definition of one run of `checkForEvent`. */
  function Run(stored: Option<Doc>, client: Client): Outcome {
    if stored.None? then Outcome([], Failed(StateUnreadable))
    else if client.blockNumber.None? then Outcome([], Failed(TipUnavailable))
    else
      var data := stored.value;
      var toBlock := Window(data.lastProcessedBlock, client.blockNumber.value);
      match client.getLogs(Range(data.lastProcessedBlock, toBlock))
      case None => Outcome([], Failed(LogsUnavailable))
      case Some(logs) =>
        var ws := Writes(logs);
        var book := Fold(data.tournaments, ws);
        Outcome(Messages(book, Flagged(book, Targets(ws)), CountAlert), Committed(Doc(toBlock, book)))
  }

  /** `checkForEvent()`: the steps of the run in source order. */
  method CheckForEvent(stored: Option<Doc>, client: Client) returns (out: Outcome)
    ensures out == Run(stored, client)
  {
    if stored.None? {
      return Outcome([], Failed(StateUnreadable));
    }
    var data := stored.value;
    if client.blockNumber.None? {
      return Outcome([], Failed(TipUnavailable));
    }
    var toBlock := client.blockNumber.value;
    if toBlock > data.lastProcessedBlock + BATCH_BLOCK {
      toBlock := data.lastProcessedBlock + BATCH_BLOCK;
    }
    var fetched := client.getLogs(Range(data.lastProcessedBlock, toBlock));
    if fetched.None? {
      return Outcome([], Failed(LogsUnavailable));
    }
    var logs := fetched.value;
    var book := data.tournaments;
    var sent: seq<Alert> := [];
    if |logs| > 0 {
      var toVerify;
      book, toVerify := IngestLogs(data.tournaments, logs);
      sent := NotifyDisputes(book, toVerify);
    } else {
      assert Writes(logs) == [];
      assert Flagged(book, Targets(Writes(logs))) == [];
    }
    out := Outcome(sent, Committed(Doc(toBlock, book)));
  }

  // ---------------------------------------------------------------------
  // Properties of a run

  /** A run commits exactly when the document, the tip and the single log
      query all succeed; a failed run sends nothing and writes nothing. */
  lemma RunCommits(stored: Option<Doc>, client: Client)
    ensures Run(stored, client).result.Committed? <==>
              stored.Some? && client.blockNumber.Some? &&
              client.getLogs(Range(stored.value.lastProcessedBlock,
                                   Window(stored.value.lastProcessedBlock, client.blockNumber.value))).Some?
    ensures Run(stored, client).result.Failed? ==> Run(stored, client).sent == []
  {
  }

  /** A committed run moves the cursor to the end of the window it queried:
      forward by at most `BATCH_BLOCK`, never past the tip, and back to the
      tip when the stored cursor is ahead of it. The window's end itself is
      queried again by the next run. */
  lemma RunCursor(data: Doc, client: Client)
    requires Run(Some(data), client).result.Committed?
    ensures client.blockNumber.Some?
    ensures var cursor := Run(Some(data), client).result.doc.lastProcessedBlock;
      var tip := client.blockNumber.value;
      && cursor <= tip
      && cursor <= data.lastProcessedBlock + BATCH_BLOCK
      && (tip >= data.lastProcessedBlock ==> data.lastProcessedBlock <= cursor)
      && (tip > data.lastProcessedBlock ==> data.lastProcessedBlock < cursor)
      && (tip < data.lastProcessedBlock ==> cursor == tip)
  {
  }

  /** Every alert of a run names a tournament of the batch with more than
      one claim; in a consistent book the count it reports is that
      tournament's number of claims after the batch. */
  lemma RunAlerts(data: Doc, client: Client)
    requires Run(Some(data), client).result.Committed?
    ensures var out := Run(Some(data), client);
      var book := out.result.doc.tournaments;
      && (forall i :: 0 <= i < |out.sent| ==> out.sent[i].nClaims > 1)
      && (Keyed(data.tournaments) ==>
            forall i :: 0 <= i < |out.sent| ==>
              Disputed(book, out.sent[i].address) &&
              out.sent[i].nClaims == |book[out.sent[i].address].claims.keys|)
  {
    var tip := client.blockNumber.value;
    var logs := client.getLogs(Range(data.lastProcessedBlock, Window(data.lastProcessedBlock, tip))).value;
    var ws := Writes(logs);
    var book := Fold(data.tournaments, ws);
    var flagged := Flagged(book, Targets(ws));
    assert forall i :: 0 <= i < |flagged| ==> flagged[i] in flagged;
    MessagesEach(book, flagged, CountAlert);
    if Keyed(data.tournaments) {
      FoldKeyed(data.tournaments, ws);
    }
  }

  /** The alerts of a committed run, counted per tournament: in a consistent
      book one per log of a tournament that holds more than one claim after
      the batch, and none for any other tournament. */
  lemma RunAlertCount(data: Doc, client: Client, a: Address)
    requires Keyed(data.tournaments)
    requires Run(Some(data), client).result.Committed?
    ensures client.blockNumber.Some?
    ensures client.getLogs(Range(data.lastProcessedBlock, Window(data.lastProcessedBlock, client.blockNumber.value))).Some?
    ensures var logs := client.getLogs(Range(data.lastProcessedBlock, Window(data.lastProcessedBlock, client.blockNumber.value))).value;
      var out := Run(Some(data), client);
      var book := out.result.doc.tournaments;
      |set i | 0 <= i < |out.sent| && out.sent[i].address == a| ==
        if Disputed(book, a) then |set j | 0 <= j < |logs| && logs[j].address == a| else 0
  {
    var tip := client.blockNumber.value;
    var logs := client.getLogs(Range(data.lastProcessedBlock, Window(data.lastProcessedBlock, tip))).value;
    var ws := Writes(logs);
    var book := Fold(data.tournaments, ws);
    var targets := Targets(ws);
    assert Run(Some(data), client) ==
           Outcome(Messages(book, Flagged(book, targets), CountAlert), Committed(Doc(Window(data.lastProcessedBlock, tip), book)));
    FoldKeyed(data.tournaments, ws);
    AlertCount(book, targets, a);
    CountPositions(targets, a);
    assert (set j | 0 <= j < |logs| && logs[j].address == a) == (set j | 0 <= j < |targets| && targets[j] == a);
  }

  /** In a consistent book the count loop alerts on an address once per
      `toVerify` entry naming it if it is disputed, and never otherwise. */
  lemma AlertCount(book: Book<TxHash>, toVerify: seq<Address>, a: Address)
    requires Keyed(book)
    ensures var sent := Messages(book, Flagged(book, toVerify), CountAlert);
      |set i | 0 <= i < |sent| && sent[i].address == a| ==
        if Disputed(book, a) then multiset(toVerify)[a] else 0
  {
    var flagged := Flagged(book, toVerify);
    var sent := Messages(book, flagged, CountAlert);
    assert forall i :: 0 <= i < |flagged| ==> flagged[i] in flagged;
    MessagesEach(book, flagged, CountAlert);
    forall i | 0 <= i < |sent| ensures sent[i].address == flagged[i] {
      assert sent[i] == CountAlert(book[flagged[i]]);
    }
    assert (set i | 0 <= i < |sent| && sent[i].address == a) == (set i | 0 <= i < |flagged| && flagged[i] == a);
    FlaggedCount(book, toVerify, a);
    CountPositions(flagged, a);
  }

  /** The cursor after `n` committed runs against the same tip. */
  function Cursor(lastProcessedBlock: nat, tip: nat, n: nat): nat
    decreases n
  {
    if n == 0 then lastProcessedBlock else Cursor(Window(lastProcessedBlock, tip), tip, n - 1)
  }

  /** Catching up: with the tip standing still, `n` runs reach it once
      `n * BATCH_BLOCK` covers the distance, and then stay there. */
  lemma {:induction false} CatchUp(lastProcessedBlock: nat, tip: nat, n: nat)
    requires lastProcessedBlock <= tip
    requires n * BATCH_BLOCK >= tip - lastProcessedBlock
    ensures Cursor(lastProcessedBlock, tip, n) == tip
    decreases n
  {
    if n > 0 {
      var next := Window(lastProcessedBlock, tip);
      if next == tip {
        StaysAtTip(tip, n - 1);
      } else {
        assert (n - 1) * BATCH_BLOCK == n * BATCH_BLOCK - BATCH_BLOCK;
        CatchUp(next, tip, n - 1);
      }
    }
  }

  lemma {:induction false} StaysAtTip(tip: nat, n: nat)
    ensures Cursor(tip, tip, n) == tip
    decreases n
  {
    if n > 0 {
      StaysAtTip(tip, n - 1);
    }
  }

  /** Until the tip is reached every run advances by exactly `BATCH_BLOCK`. */
  lemma {:induction false} CursorBehind(lastProcessedBlock: nat, tip: nat, n: nat)
    requires lastProcessedBlock + n * BATCH_BLOCK <= tip
    ensures Cursor(lastProcessedBlock, tip, n) == lastProcessedBlock + n * BATCH_BLOCK
    decreases n
  {
    if n > 0 {
      assert n * BATCH_BLOCK == (n - 1) * BATCH_BLOCK + BATCH_BLOCK;
      CursorBehind(lastProcessedBlock + BATCH_BLOCK, tip, n - 1);
    }
  }

  /** The logs of the block at the window's end, queried again by the next
      run, leave the book as it would be after one delivery. */
  lemma RefetchHarmless(tournaments: Book<TxHash>, xs: seq<Log>, ys: seq<Log>, zs: seq<Log>)
    ensures Fold(Fold(tournaments, Writes(xs + ys)), Writes(ys + zs)) == Fold(tournaments, Writes(xs + ys + zs))
  {
    assert Writes(xs + ys) == Writes(xs) + Writes(ys);
    assert Writes(ys + zs) == Writes(ys) + Writes(zs);
    assert Writes(xs + ys + zs) == Writes(xs) + Writes(ys) + Writes(zs);
    FoldOverlap(tournaments, Writes(xs), Writes(ys), Writes(zs));
  }
}
