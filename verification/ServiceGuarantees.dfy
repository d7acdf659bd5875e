/** What follows for slots, single steps and the quota. */
module ServiceGuarantees {
  import opened Quota
  import opened Service
  import opened ServiceSafety
  import opened ServiceSteps
  import G = Gate

  // ---------------------------------------------------------------- slots and reservations

  /** In every reachable state the held slots and the waiting calls are in
      bijection, and the gate counts them per user and in all. */
  lemma SlotsAreWaitingCalls(s: Settings, ops: seq<Op>)
    ensures var w := After(s, EMPTY_WORLD, ops);
            && (forall k :: 0 <= k < |w.gate.slots| ==> (!w.gate.slots[k].released <==> HoldsSlot(w.calls, k)))
            && (forall i, j :: 0 <= i < j < |w.calls| ==> w.calls[i].slot != w.calls[j].slot)
            && (forall user :: G.Mine(w.gate.perUser, user) == WaitingBy(w.calls, user))
            && G.WithinLimits(w.gate, s.limits)
  {
    InitiallySafe(s);
    EveryRunIsSafe(s, EMPTY_WORLD, ops);
  }

  /** Every open reservation of this process belongs to a waiting call, and no two
      calls share one, unless a release could not be written. */
  lemma OpenReservationsAreAwaited(s: Settings, ops: seq<Op>)
    ensures var w := After(s, EMPTY_WORLD, ops);
            && (forall r :: r in w.ours && r < |w.ledger.rows| && w.ledger.rows[r].status == Open ==>
                 r in w.stuck || AwaitsRow(w.calls, r))
            && (forall i, j :: 0 <= i < j < |w.calls| ==> w.calls[i].row != w.calls[j].row)
            && (forall r :: r in w.ours ==> r < |w.ledger.rows|)
  {
    InitiallySafe(s);
    EveryRunIsSafe(s, EMPTY_WORLD, ops);
  }

  /** Once no call waits, whichever stage failed: the gate is empty, and only a
      reservation whose release could not be written is still open. */
  lemma QuietMeansEmpty(s: Settings, ops: seq<Op>)
    requires forall i :: 0 <= i < |After(s, EMPTY_WORLD, ops).calls| ==>
               !After(s, EMPTY_WORLD, ops).calls[i].phase.Waiting?
    ensures var w := After(s, EMPTY_WORLD, ops);
            && w.gate.inFlight == 0 && w.gate.perUser == map[]
            && (forall k :: 0 <= k < |w.gate.slots| ==> w.gate.slots[k].released)
            && (forall r :: r in w.ours && r < |w.ledger.rows| && w.ledger.rows[r].status == Open ==> r in w.stuck)
  {
    InitiallySafe(s);
    EveryRunIsSafe(s, EMPTY_WORLD, ops);
    G.EmptyWhenNothingHeld(After(s, EMPTY_WORLD, ops).gate);
  }

  // ---------------------------------------------------------------- charging, step by step

  /** What a reply does to the quota: a validated answer consumes its own open
      reservation, once, and one settled in the meantime is not charged again; any
      other ending charges nothing and gives the reservation back. */
  lemma ReplySettlesOwnReservation(s: Settings, w: World, i: nat, reply: Reply, expiresAt: int, f: EndFaults)
    requires Inv(s, w) && CanResume(w, i)
    ensures var next, row := Finish(s, w, i, reply, expiresAt, f), w.calls[i].row;
            var phase, open := next.calls[i].phase, w.ledger.rows[row].status == Open;
            && (Charges(phase) <==> Acceptable(s, w.calls[i], reply) && !f.consumeThrows)
            && (Charges(phase) && open ==>
                  next.ledger.usage == w.ledger.usage + [Usage(w.calls[i].request.user, AIRequest)]
                  && next.ledger.rows[row].status == Consumed && row in next.charged)
            && (!Charges(phase) && open && !f.releaseThrows ==> next.ledger.rows[row].status == Released)
            && (!Charges(phase) || !open ==> next.ledger.usage == w.ledger.usage && next.charged == w.charged)
            && (!open ==> next.ledger == w.ledger)
  {
    AcceptableExactly(s, w.calls[i], reply);
    ReleaseAfterCharge(w, w.calls[i].row, f.releaseThrows);
  }

  /** Storing the answer can fail after the charge: the caller gets an error and has
      paid, although the header of the service says a failure never charges. It
      happens exactly when results are kept and the insert throws. */
  lemma ErrorYetCharged(s: Settings, w: World, i: nat, reply: Reply, expiresAt: int, f: EndFaults)
    requires Inv(s, w) && CanResume(w, i) && w.ledger.rows[w.calls[i].row].status == Open
    ensures var next := Finish(s, w, i, reply, expiresAt, f);
            (!next.calls[i].phase.Answered? && next.ledger.usage != w.ledger.usage)
            == (Acceptable(s, w.calls[i], reply) && !f.consumeThrows && s.retain && f.insertThrows)
  {
    var next := Finish(s, w, i, reply, expiresAt, f);
    ReplySettlesOwnReservation(s, w, i, reply, expiresAt, f);
    assert w.ledger.usage + [Usage(w.calls[i].request.user, AIRequest)] != w.ledger.usage;
  }

  /** Starting a request never charges. A cache hit changes nothing at all, and a
      start that fails leaves its reservation, if it made one, released. */
  lemma StartNeverCharges(s: Settings, w: World, r: Ask, now: int, f: BeginFaults)
    ensures var (next, started) := Begin(s, w, r, now, f);
            && next.ledger.usage == w.ledger.usage
            && (started.Cached? ==> next == w)
            && |next.ledger.rows| <= |w.ledger.rows| + 1 && w.ledger.rows <= next.ledger.rows
            && (started.Failed? && !f.releaseThrows && |next.ledger.rows| > |w.ledger.rows| ==>
                  next.ledger.rows[|w.ledger.rows|].status == Released)
            && (started.Suspended? ==>
                 |next.ledger.rows| > |w.ledger.rows| && next.ledger.rows[|w.ledger.rows|].status == Open)
  {
  }

  /** Over every run, outside work included, no user commits more AI requests than
      the plan allows, and every usage event stems from one consumed reservation. */
  lemma QuotaIsNeverExceeded(s: Settings, ops: seq<Op>, user: string)
    ensures var l := After(s, EMPTY_WORLD, ops).ledger;
            && CountUsage(l.usage, user, AIRequest) == CountConsumed(l.rows, user, AIRequest)
            && (Committed(l, user, AIRequest) > 0 ==> Committed(l, user, AIRequest) <= s.plan(user).aiLimit)
  {
    InitiallySafe(s);
    EveryRunIsSafe(s, EMPTY_WORLD, ops);
  }
}
