/** The settlement watcher (`canSettleMonitor.js`): one run reads its state
    document, asks the settlement contract whether the current epoch can be
    settled and which epoch is sealed, stamps the moment `isFinished` turns
    true, alerts while an epoch has been settleable for more than an hour,
    and writes the fresh answers back as the new document.

    The file, the contract reads, the clock and the webhook are parameters;
    a single `now` stands for the run's clock readings. */
module SettleMonitor {
  import opened Common

  /** One hour in milliseconds: the alert fires strictly after it. */
  const SETTLE_GRACE: nat := 3_600_000

  /** `canSettle()` as the contract returns it. */
  datatype RawCanSettle = RawCanSettle(isFinished: bool, epochNumber: nat, winnerCommitment: string)

  /** `getCurrentSealedEpoch()` as the contract returns it. */
  datatype RawSealed = RawSealed(epochNumber: nat, inputIndexLowerBound: nat, inputIndexUpperBound: nat, tournament: Address)

  /** The sealed epoch as stored: zero fields read back as -1. */
  datatype SealedEpoch = SealedEpoch(
    epochNumber: int, inputIndexLowerBound: int, inputIndexUpperBound: int,
    tournament: Address, createdAt: nat)

  /** The state document `canSettle.json`. A stored timestamp of 0 is kept
      as written, though the run reads it as absent. */
  datatype SettleDoc = SettleDoc(
    isFinished: bool,
    epochNumber: nat,
    winnerCommitment: string,
    lastCanSettleTimestamp: Option<nat>,
    currentSealedEpoch: Option<SealedEpoch>)

  /** The alert names the epoch open for settlement. */
  datatype SettleAlert = SettleAlert(epochNumber: nat)

  /** Why a run ends with a non-zero exit status: an unreadable document
      exits at once, a rejected contract read or delivery aborts the run. */
  datatype Failure = StateUnreadable | CanSettleUnavailable | SealedUnavailable | DeliveryFailed

  datatype Result = Committed(doc: SettleDoc) | Failed(failure: Failure)

  datatype Outcome = Outcome(sent: seq<SettleAlert>, result: Result)

  // ---------------------------------------------------------------------
  // Normalisation of the contract reads

  /** `(x || 0)`: only `0n` is falsy, and it is replaced by 0. */
  function OrZero(x: nat): (y: nat)
    ensures y == x
  {
    if x == 0 then 0 else x
  }

  /** `(x || -1)`: a zero field is replaced by -1, any other kept. */
  function OrMinusOne(x: nat): (y: int)
    ensures y == -1 <==> x == 0
    ensures x != 0 ==> y == x
    ensures y >= -1
  {
    if x == 0 then -1 else x
  }

  /** Reading a stored field back: -1 stands for 0. */
  function FromStored(y: int): nat
    requires y >= -1
  {
    if y == -1 then 0 else y
  }

  /** The -1 convention loses nothing: every read field is recovered from
      its stored form, so distinct reads are stored distinctly. */
  lemma OrMinusOneRoundTrip(x: nat, x': nat)
    ensures FromStored(OrMinusOne(x)) == x
    ensures OrMinusOne(x) == OrMinusOne(x') ==> x == x'
  {
  }

  /** The object `canSettle()` builds from the contract's answer. */
  datatype CanSettle = CanSettle(isFinished: bool, epochNumber: nat, winnerCommitment: string)

  function NormaliseCanSettle(raw: RawCanSettle): (r: CanSettle)
    ensures r.isFinished == raw.isFinished && r.winnerCommitment == raw.winnerCommitment
    ensures r.epochNumber == raw.epochNumber
  {
    CanSettle(raw.isFinished, OrZero(raw.epochNumber), raw.winnerCommitment)
  }

  /** The object `getCurrentSealedEpoch()` builds, with `createdAt` added. */
  function Seal(raw: RawSealed, createdAt: nat): (s: SealedEpoch)
    ensures s.epochNumber >= -1 && s.inputIndexLowerBound >= -1 && s.inputIndexUpperBound >= -1
    ensures FromStored(s.epochNumber) == raw.epochNumber
    ensures FromStored(s.inputIndexLowerBound) == raw.inputIndexLowerBound
    ensures FromStored(s.inputIndexUpperBound) == raw.inputIndexUpperBound
    ensures s.tournament == raw.tournament && s.createdAt == createdAt
  {
    SealedEpoch(OrMinusOne(raw.epochNumber), OrMinusOne(raw.inputIndexLowerBound),
                OrMinusOne(raw.inputIndexUpperBound), raw.tournament, createdAt)
  }

  // ---------------------------------------------------------------------
  // The transition

  /** `data.lastCanSettleTimestamp || null` */
  function Carried(ts: Option<nat>): (r: Option<nat>)
    ensures r.None? <==> ts.None? || ts == Some(0)
    ensures r.Some? ==> r == ts
  {
    if ts == Some(0) then None else ts
  }

  /** The timestamp of the new document: `now` on the false-to-true edge of
      `isFinished`, the carried value otherwise. */
  function Stamp(prev: SettleDoc, cs: CanSettle, now: nat): Option<nat> {
    if !prev.isFinished && cs.isFinished then Some(now) else Carried(prev.lastCanSettleTimestamp)
  }

  /** The sealed-epoch comparison: a fresh read whose epoch differs from the
      pending document's is stamped with `createdAt`, otherwise the stored
      epoch is kept. */
  function SealedUpdate(latest: RawSealed, pending: Option<SealedEpoch>, stored: Option<SealedEpoch>, now: nat): Option<SealedEpoch> {
    if pending.None? || OrMinusOne(latest.epochNumber) != pending.value.epochNumber then Some(Seal(latest, now))
    else stored
  }

  /** Reference definition of the new document. The pending document `res`
      never holds a sealed epoch when it is compared, so the comparison
      is always against nothing. */
  function Transition(prev: SettleDoc, cs: CanSettle, sealed: RawSealed, now: nat): SettleDoc {
    SettleDoc(cs.isFinished, cs.epochNumber, cs.winnerCommitment,
              Stamp(prev, cs, now),
              SealedUpdate(sealed, None, prev.currentSealedEpoch, now))
  }

  /** `res.isFinished && res.lastCanSettleTimestamp` and then
      `Date.now() - res.lastCanSettleTimestamp > 3600000`. */
  predicate Overdue(doc: SettleDoc, now: nat) {
    doc.isFinished && doc.lastCanSettleTimestamp.Some? && doc.lastCanSettleTimestamp.value != 0 &&
    now - doc.lastCanSettleTimestamp.value > SETTLE_GRACE
  }

  /** The alert a document raises at `now`, if any. */
  function AlertFor(doc: SettleDoc, now: nat): (a: Option<SettleAlert>)
    ensures a.Some? <==> Overdue(doc, now)
    ensures a.Some? ==> a.value.epochNumber == doc.epochNumber
  {
    if Overdue(doc, now) then Some(SettleAlert(doc.epochNumber)) else None
  }

  /** Reference definition of one run of `checkCanSettle`. */
  function Run(stored: Option<SettleDoc>, canSettle: Option<RawCanSettle>, sealed: Option<RawSealed>,
               now: nat, deliver: SettleAlert -> bool): Outcome
  {
    if stored.None? then Outcome([], Failed(StateUnreadable))
    else if canSettle.None? then Outcome([], Failed(CanSettleUnavailable))
    else if sealed.None? then Outcome([], Failed(SealedUnavailable))
    else
      var doc := Transition(stored.value, NormaliseCanSettle(canSettle.value), sealed.value, now);
      match AlertFor(doc, now)
      case None => Outcome([], Committed(doc))
      case Some(alert) =>
        if deliver(alert) then Outcome([alert], Committed(doc)) else Outcome([alert], Failed(DeliveryFailed))
  }

  /** `checkCanSettle()`: `res` is built from the contract's answer and its
      computed fields are assigned one by one before the alert and the
      write. */
  method CheckCanSettle(stored: Option<SettleDoc>, canSettle: Option<RawCanSettle>, sealed: Option<RawSealed>,
                        now: nat, deliver: SettleAlert -> bool)
    returns (out: Outcome)
    ensures out == Run(stored, canSettle, sealed, now, deliver)
  {
    if stored.None? {
      return Outcome([], Failed(StateUnreadable));
    }
    var data := stored.value;
    if canSettle.None? {
      return Outcome([], Failed(CanSettleUnavailable));
    }
    var cs := NormaliseCanSettle(canSettle.value);
    var res := SettleDoc(cs.isFinished, cs.epochNumber, cs.winnerCommitment, None, None);
    if !data.isFinished && res.isFinished {
      res := res.(lastCanSettleTimestamp := Some(now));
    } else {
      res := res.(lastCanSettleTimestamp := Carried(data.lastCanSettleTimestamp));
    }
    if sealed.None? {
      return Outcome([], Failed(SealedUnavailable));
    }
    var currentSealedEpoch := sealed.value;
    res := res.(currentSealedEpoch := SealedUpdate(currentSealedEpoch, res.currentSealedEpoch, data.currentSealedEpoch, now));
    var sent: seq<SettleAlert> := [];
    if res.isFinished && res.lastCanSettleTimestamp.Some? && res.lastCanSettleTimestamp.value != 0 {
      var elapsed := now - res.lastCanSettleTimestamp.value;
      if elapsed > SETTLE_GRACE {
        var msg := SettleAlert(res.epochNumber);
        sent := [msg];
        if !deliver(msg) {
          return Outcome(sent, Failed(DeliveryFailed));
        }
      }
    }
    out := Outcome(sent, Committed(res));
  }

  // ---------------------------------------------------------------------
  // Properties of the transition

  /** The new document takes `isFinished`, the epoch and the winner from the
      fresh read, stamps `now` exactly on the false-to-true edge, keeps a
      truthy timestamp otherwise (also when `isFinished` falls back to
      false), and always replaces the sealed epoch by the fresh read
      created at `now`. */
  lemma TransitionFacts(prev: SettleDoc, raw: RawCanSettle, sealed: RawSealed, now: nat)
    ensures var doc := Transition(prev, NormaliseCanSettle(raw), sealed, now);
      && doc.isFinished == raw.isFinished
      && doc.epochNumber == raw.epochNumber
      && doc.winnerCommitment == raw.winnerCommitment
      && (!prev.isFinished && raw.isFinished ==> doc.lastCanSettleTimestamp == Some(now))
      && (prev.isFinished || !raw.isFinished ==>
            doc.lastCanSettleTimestamp == Carried(prev.lastCanSettleTimestamp))
      && (prev.isFinished && prev.lastCanSettleTimestamp.Some? && prev.lastCanSettleTimestamp.value != 0 ==>
            doc.lastCanSettleTimestamp == prev.lastCanSettleTimestamp)
      && doc.currentSealedEpoch == Some(Seal(sealed, now))
  {
  }

  /** Nothing of the previous document survives but `isFinished` and the
      carried timestamp: two documents agreeing on those lead to the same
      new document, whatever sealed epoch or epoch they held. */
  lemma OnlyStampCarried(p: SettleDoc, q: SettleDoc, cs: CanSettle, sealed: RawSealed, now: nat)
    requires p.isFinished == q.isFinished
    requires Carried(p.lastCanSettleTimestamp) == Carried(q.lastCanSettleTimestamp)
    ensures Transition(p, cs, sealed, now) == Transition(q, cs, sealed, now)
  {
  }

  /** The run that sees the false-to-true edge never alerts: its stamp is
      `now` itself. */
  lemma RisingEdgeQuiet(prev: SettleDoc, raw: RawCanSettle, sealed: RawSealed, now: nat)
    requires !prev.isFinished && raw.isFinished
    ensures AlertFor(Transition(prev, NormaliseCanSettle(raw), sealed, now), now).None?
  {
  }

  /** The alert is not suppressed: a document that raised it raises it again
      at any later time while the contract still reports `isFinished`. */
  lemma AlertRepeats(doc: SettleDoc, raw: RawCanSettle, sealed: RawSealed, now: nat, later: nat)
    requires Overdue(doc, now) && raw.isFinished && now <= later
    ensures Overdue(Transition(doc, NormaliseCanSettle(raw), sealed, later), later)
  {
  }

  /** A read of the contract at one instant. */
  datatype Reading = Reading(canSettle: RawCanSettle, sealed: RawSealed, now: nat)

  /** The document after a sequence of committed runs. */
  function History(doc: SettleDoc, rs: seq<Reading>): SettleDoc
    decreases |rs|
  {
    if rs == [] then doc
    else
      var r := rs[|rs| - 1];
      Transition(History(doc, rs[..|rs| - 1]), NormaliseCanSettle(r.canSettle), r.sealed, r.now)
  }

  /** While `isFinished` stays true, the stored stamp never changes. */
  lemma {:induction false} StampHeld(doc: SettleDoc, rs: seq<Reading>)
    requires doc.isFinished
    requires forall i :: 0 <= i < |rs| ==> rs[i].canSettle.isFinished
    ensures History(doc, rs).isFinished
    ensures History(doc, rs).lastCanSettleTimestamp ==
            if rs == [] then doc.lastCanSettleTimestamp else Carried(doc.lastCanSettleTimestamp)
    decreases |rs|
  {
    if rs != [] {
      var init := rs[..|rs| - 1];
      assert forall i :: 0 <= i < |init| ==> init[i] == rs[i];
      StampHeld(doc, init);
    }
  }

  /** A rising edge at a nonzero instant, followed by any number of runs
      that still see `isFinished`, leaves the stamp of the edge in place,
      and the alert fires exactly at readings more than an hour later. */
  lemma RisingEdgeRemembered(doc: SettleDoc, edge: Reading, rs: seq<Reading>, now: nat)
    requires !doc.isFinished && edge.canSettle.isFinished && edge.now != 0
    requires forall i :: 0 <= i < |rs| ==> rs[i].canSettle.isFinished
    ensures History(doc, [edge] + rs).lastCanSettleTimestamp == Some(edge.now)
    ensures History(doc, [edge] + rs).isFinished
    ensures Overdue(History(doc, [edge] + rs), now) <==> now - edge.now > SETTLE_GRACE
  {
    var first := Transition(doc, NormaliseCanSettle(edge.canSettle), edge.sealed, edge.now);
    HistoryAppend(doc, [edge], rs);
    assert History(doc, [edge]) == first by {
      assert [edge][..0] == [];
    }
    StampHeld(first, rs);
  }

  lemma {:induction false} HistoryAppend(doc: SettleDoc, xs: seq<Reading>, ys: seq<Reading>)
    ensures History(doc, xs + ys) == History(History(doc, xs), ys)
    decreases |ys|
  {
    if ys == [] {
      assert xs + ys == xs;
    } else {
      assert (xs + ys)[..|xs + ys| - 1] == xs + ys[..|ys| - 1];
      HistoryAppend(doc, xs, ys[..|ys| - 1]);
    }
  }

  // ---------------------------------------------------------------------
  // Properties of a run

  /** An unreadable document ends the run before any contract read: the
      outcome does not depend on the chain, the clock or the webhook. */
  lemma UnreadableFirst(cs: Option<RawCanSettle>, sealed: Option<RawSealed>, now: nat, deliver: SettleAlert -> bool,
                        cs': Option<RawCanSettle>, sealed': Option<RawSealed>, now': nat, deliver': SettleAlert -> bool)
    ensures Run(None, cs, sealed, now, deliver) == Run(None, cs', sealed', now', deliver')
    ensures Run(None, cs, sealed, now, deliver) == Outcome([], Failed(StateUnreadable))
  {
  }

  /** A run commits exactly when both reads succeed and any alert it raises
      is delivered; it sends at most one alert, and only an overdue one. */
  lemma RunCommits(stored: Option<SettleDoc>, cs: Option<RawCanSettle>, sealed: Option<RawSealed>,
                   now: nat, deliver: SettleAlert -> bool)
    requires stored.Some?
    ensures var out := Run(stored, cs, sealed, now, deliver);
      && |out.sent| <= 1
      && (out.result.Committed? <==>
            cs.Some? && sealed.Some? &&
            forall i :: 0 <= i < |out.sent| ==> deliver(out.sent[i]))
      && (out.result.Committed? ==>
            out.result.doc == Transition(stored.value, NormaliseCanSettle(cs.value), sealed.value, now) &&
            (|out.sent| == 1 <==> Overdue(out.result.doc, now)))
  {
    if cs.Some? && sealed.Some? {
      var doc := Transition(stored.value, NormaliseCanSettle(cs.value), sealed.value, now);
      var out := Run(stored, cs, sealed, now, deliver);
      if AlertFor(doc, now).Some? {
        var alert := AlertFor(doc, now).value;
        assert out.sent == [alert];
        assert out.result.Committed? <==> deliver(out.sent[0]);
      } else {
        assert out.sent == [];
      }
    }
  }
}
