/** What every reachable state of the AI service satisfies. */
module ServiceSafety {
  import opened Seqs
  import opened Json
  import opened AIErrors
  import opened AIContext
  import opened AIOutput
  import opened ContextBuild
  import opened Quota
  import opened Service
  import G = Gate

  // ---------------------------------------------------------------- slots and calls

  function WaitingBy(calls: seq<Call>, user: string): nat {
    if calls == [] then 0
    else (if calls[0].phase.Waiting? && calls[0].request.user == user then 1 else 0) + WaitingBy(calls[1..], user)
  }

  ghost predicate HoldsSlot(calls: seq<Call>, k: nat) {
    exists i :: 0 <= i < |calls| && calls[i].slot == k && calls[i].phase.Waiting?
  }

  /** The held slots are exactly those of the waiting calls, one each. */
  ghost predicate SlotsMatch(g: G.GateState, calls: seq<Call>) {
    && (forall i :: 0 <= i < |calls| ==>
         calls[i].slot < |g.slots| && g.slots[calls[i].slot].user == calls[i].request.user)
    && (forall i :: 0 <= i < |calls| ==> (g.slots[calls[i].slot].released <==> !calls[i].phase.Waiting?))
    && (forall i, j :: 0 <= i < j < |calls| ==> calls[i].slot < calls[j].slot)
    && (forall k :: 0 <= k < |g.slots| && !g.slots[k].released ==> HoldsSlot(calls, k))
    && (forall user :: G.HeldBy(g.slots, user) == WaitingBy(calls, user))
  }

  ghost predicate GateInv(s: Settings, g: G.GateState, calls: seq<Call>) {
    G.Consistent(g) && G.WithinLimits(g, s.limits) && SlotsMatch(g, calls)
  }

  lemma {:induction false} WaitingPush(calls: seq<Call>, c: Call, user: string)
    ensures WaitingBy(calls + [c], user)
              == WaitingBy(calls, user) + (if c.phase.Waiting? && c.request.user == user then 1 else 0)
  {
    if calls == [] {
      assert calls + [c] == [c];
    } else {
      WaitingPush(calls[1..], c, user);
      assert (calls + [c])[1..] == calls[1..] + [c];
    }
  }

  lemma {:induction false} WaitingEnd(calls: seq<Call>, i: nat, phase: Phase, user: string)
    requires i < |calls| && calls[i].phase.Waiting? && !phase.Waiting?
    ensures WaitingBy(calls[i := calls[i].(phase := phase)], user) + (if calls[i].request.user == user then 1 else 0)
         == WaitingBy(calls, user)
  {
    var after := calls[i := calls[i].(phase := phase)];
    if i == 0 {
      assert after[1..] == calls[1..];
    } else {
      WaitingEnd(calls[1..], i - 1, phase, user);
      assert after[1..] == calls[1..][i - 1 := calls[i].(phase := phase)];
    }
  }

  lemma AcquireCounts(g: G.GateState, user: string, limits: G.Limits, other: string)
    requires G.Acquire(g, user, limits).Ok?
    ensures G.HeldBy(G.Acquire(g, user, limits).value.slots, other)
              == G.HeldBy(g.slots, other) + (if user == other then 1 else 0)
  {
    G.HeldPush(g.slots, G.SlotState(user, false), other);
  }

  lemma EnterKeepsGate(s: Settings, g: G.GateState, calls: seq<Call>, c: Call)
    requires GateInv(s, g, calls)
    requires G.Acquire(g, c.request.user, s.limits).Ok? && c.slot == |g.slots| && c.phase.Waiting?
    ensures GateInv(s, G.Acquire(g, c.request.user, s.limits).value, calls + [c])
  {
    var next := G.Acquire(g, c.request.user, s.limits).value;
    var after := calls + [c];
    G.AcquireKeepsConsistent(g, c.request.user, s.limits);
    forall user
      ensures G.HeldBy(next.slots, user) == WaitingBy(after, user)
    {
      AcquireCounts(g, c.request.user, s.limits, user);
      WaitingPush(calls, c, user);
    }
    forall k | 0 <= k < |next.slots| && !next.slots[k].released
      ensures HoldsSlot(after, k)
    {
      if k < |g.slots| {
        var i :| 0 <= i < |calls| && calls[i].slot == k && calls[i].phase.Waiting?;
        assert after[i] == calls[i];
      } else {
        assert after[|calls|] == c;
      }
    }
  }

  /** Taking a slot and giving it back at once leaves nothing held. */
  lemma PassThroughKeepsGate(s: Settings, g: G.GateState, calls: seq<Call>, user: string)
    requires GateInv(s, g, calls) && G.Acquire(g, user, s.limits).Ok?
    ensures GateInv(s, G.Release(G.Acquire(g, user, s.limits).value, |g.slots|), calls)
  {
    var held := G.Acquire(g, user, s.limits).value;
    var next := G.Release(held, |g.slots|);
    G.AcquireKeepsConsistent(g, user, s.limits);
    G.ReleaseKeepsConsistent(held, |g.slots|);
    forall other
      ensures G.HeldBy(next.slots, other) == WaitingBy(calls, other)
    {
      AcquireCounts(g, user, s.limits, other);
      G.HeldUpdate(held.slots, |g.slots|, other);
    }
    assert forall k :: 0 <= k < |g.slots| ==> next.slots[k] == g.slots[k];
  }

  lemma FinishKeepsGate(s: Settings, g: G.GateState, calls: seq<Call>, i: nat, phase: Phase)
    requires GateInv(s, g, calls) && i < |calls| && calls[i].phase.Waiting? && !phase.Waiting?
    ensures GateInv(s, G.Release(g, calls[i].slot), calls[i := calls[i].(phase := phase)])
  {
    var slot := calls[i].slot;
    var next, after := G.Release(g, slot), calls[i := calls[i].(phase := phase)];
    G.ReleaseKeepsConsistent(g, slot);
    forall user
      ensures G.HeldBy(next.slots, user) == WaitingBy(after, user)
    {
      G.HeldUpdate(g.slots, slot, user);
      WaitingEnd(calls, i, phase, user);
    }
    forall k | 0 <= k < |next.slots| && !next.slots[k].released
      ensures HoldsSlot(after, k)
    {
      var j :| 0 <= j < |calls| && calls[j].slot == k && calls[j].phase.Waiting?;
      assert after[j] == calls[j];
    }
  }

  // ---------------------------------------------------------------- reservations and calls

  ghost predicate AwaitsRow(calls: seq<Call>, r: nat) {
    exists i :: 0 <= i < |calls| && calls[i].row == r && calls[i].phase.Waiting?
  }

  /** The call answered with a validated output, delivered or not. */
  predicate Charges(p: Phase) {
    p.Answered? || p.Unsaved?
  }

  ghost predicate ChargesRow(calls: seq<Call>, r: nat) {
    exists i :: 0 <= i < |calls| && calls[i].row == r && Charges(calls[i].phase)
  }

  ghost predicate OwnsRows(rows: seq<Reservation>, calls: seq<Call>, ours: set<nat>) {
    && (forall i :: 0 <= i < |calls| ==> calls[i].row in ours)
    && (forall i, j :: 0 <= i < j < |calls| ==> calls[i].row < calls[j].row)
    && (forall r :: r in ours ==> r < |rows| && rows[r].kind == AIRequest)
    && (forall i :: 0 <= i < |calls| && calls[i].row < |rows| ==> rows[calls[i].row].user == calls[i].request.user)
  }

  /** An open reservation of ours belongs to a waiting call, unless its release
      could not be written; one we consumed belongs to a validated answer. */
  ghost predicate RowsInv(rows: seq<Reservation>, calls: seq<Call>, ours: set<nat>, stuck: set<nat>,
                          charged: set<nat>) {
    && OwnsRows(rows, calls, ours)
    && (forall r :: r in ours && r < |rows| && rows[r].status == Open ==> r in stuck || AwaitsRow(calls, r))
    && (forall i :: 0 <= i < |calls| && calls[i].row < |rows| && Charges(calls[i].phase) ==>
         rows[calls[i].row].status != Open)
    && (forall r :: r in charged ==> r in ours && r < |rows| && rows[r].status == Consumed && ChargesRow(calls, r))
    && (forall i :: 0 <= i < |calls| && !Charges(calls[i].phase) ==> calls[i].row !in charged)
  }

  lemma EnterKeepsRows(rows: seq<Reservation>, calls: seq<Call>, ours: set<nat>, stuck: set<nat>, charged: set<nat>,
                       c: Call, row: Reservation)
    requires RowsInv(rows, calls, ours, stuck, charged)
    requires c.row == |rows| && c.phase.Waiting? && row.kind == AIRequest && row.user == c.request.user
    ensures RowsInv(rows + [row], calls + [c], ours + {|rows|}, stuck, charged)
  {
    var after := calls + [c];
    assert after[|calls|] == c;
    assert forall i :: 0 <= i < |calls| ==> after[i] == calls[i];
    forall r | AwaitsRow(calls, r)
      ensures AwaitsRow(after, r)
    {
      var i :| 0 <= i < |calls| && calls[i].row == r && calls[i].phase.Waiting?;
      assert after[i] == calls[i];
    }
    forall r | ChargesRow(calls, r)
      ensures ChargesRow(after, r)
    {
      var i :| 0 <= i < |calls| && calls[i].row == r && Charges(calls[i].phase);
      assert after[i] == calls[i];
    }
    assert AwaitsRow(after, |rows|);
  }

  /** A reservation that is given back at once, or stuck, adds no call. */
  lemma UndoneEntryKeepsRows(rows: seq<Reservation>, calls: seq<Call>, ours: set<nat>, stuck: set<nat>,
                             charged: set<nat>, row: Reservation)
    requires RowsInv(rows, calls, ours, stuck, charged) && row.kind == AIRequest
    ensures RowsInv(rows + [row], calls, ours + {|rows|}, stuck + {|rows|}, charged)
    ensures row.status != Open ==> RowsInv(rows + [row], calls, ours + {|rows|}, stuck, charged)
  {
  }

  /** A reservation of somebody else's adds no call either. */
  lemma OtherRowKeepsRows(rows: seq<Reservation>, calls: seq<Call>, ours: set<nat>, stuck: set<nat>,
                          charged: set<nat>, row: Reservation)
    requires RowsInv(rows, calls, ours, stuck, charged)
    ensures RowsInv(rows + [row], calls, ours, stuck, charged)
  {
  }

  /** Settling an open reservation, whoever does it, keeps the match. */
  lemma SettlingKeepsRows(rows: seq<Reservation>, calls: seq<Call>, ours: set<nat>, stuck: set<nat>,
                          charged: set<nat>, i: nat, status: Status)
    requires RowsInv(rows, calls, ours, stuck, charged)
    requires i < |rows| && rows[i].status == Open && status != Open
    ensures RowsInv(rows[i := rows[i].(status := status)], calls, ours, stuck, charged)
  {
  }

  /** A call may end without an answer once its reservation is settled or stuck. */
  lemma RefusalKeepsRows(rows: seq<Reservation>, calls: seq<Call>, ours: set<nat>, stuck: set<nat>, charged: set<nat>,
                         i: nat, code: Code)
    requires RowsInv(rows, calls, ours, stuck, charged)
    requires i < |calls| && calls[i].phase.Waiting? && calls[i].row < |rows|
    requires rows[calls[i].row].status != Open || calls[i].row in stuck
    ensures RowsInv(rows, calls[i := calls[i].(phase := Refused(code))], ours, stuck, charged)
  {
    var after := calls[i := calls[i].(phase := Refused(code))];
    EndKeepsOthers(calls, i, Refused(code));
  }

  lemma EndKeepsOthers(calls: seq<Call>, i: nat, phase: Phase)
    requires i < |calls| && calls[i].phase.Waiting?
    ensures var after := calls[i := calls[i].(phase := phase)];
            (forall r :: AwaitsRow(calls, r) && r != calls[i].row ==> AwaitsRow(after, r))
            && (forall r :: ChargesRow(calls, r) ==> ChargesRow(after, r))
  {
    var after := calls[i := calls[i].(phase := phase)];
    forall r | AwaitsRow(calls, r) && r != calls[i].row
      ensures AwaitsRow(after, r)
    {
      var j :| 0 <= j < |calls| && calls[j].row == r && calls[j].phase.Waiting?;
      assert after[j] == calls[j];
    }
    forall r | ChargesRow(calls, r)
      ensures ChargesRow(after, r)
    {
      var j :| 0 <= j < |calls| && calls[j].row == r && Charges(calls[j].phase);
      assert after[j] == calls[j];
    }
  }

  /** A call ends with an answer, its reservation consumed here or settled before. */
  lemma AnswerKeepsRows(rows: seq<Reservation>, calls: seq<Call>, ours: set<nat>, stuck: set<nat>, charged: set<nat>,
                        more: set<nat>, i: nat, phase: Phase)
    requires RowsInv(rows, calls, ours, stuck, charged)
    requires i < |calls| && calls[i].phase.Waiting? && Charges(phase) && calls[i].row < |rows|
    requires rows[calls[i].row].status != Open
    requires more <= {calls[i].row} && (more != {} ==> rows[calls[i].row].status == Consumed)
    ensures RowsInv(rows, calls[i := calls[i].(phase := phase)], ours, stuck, charged + more)
  {
    var after := calls[i := calls[i].(phase := phase)];
    EndKeepsOthers(calls, i, phase);
    assert after[i].row == calls[i].row && ChargesRow(after, calls[i].row);
  }

  // ---------------------------------------------------------------- answers and cache

  /** `output` is what validation made of some reply, against the context `c`. */
  ghost predicate Validated(s: Settings, feature: Feature, c: Context, output: Output) {
    exists raw: Json :: s.validate(feature, raw, c) == Ok(output)
  }

  ghost predicate SoundCall(s: Settings, call: Call) {
    && s.build(call.request) == Ok(call.context)
    && (Charges(call.phase) ==> Validated(s, call.request.feature, call.context, call.phase.output))
  }

  /** The call was answered with `output` under `key`. */
  predicate AnsweredAs(s: Settings, call: Call, key: Key, output: Output) {
    call.phase == Answered(output) && KeyOf(s, call.request, call.context) == key
  }

  /** The stored result is the answer of a call of this run. */
  ghost predicate SoundEntry(s: Settings, calls: seq<Call>, e: Stored) {
    exists i :: 0 <= i < |calls| && AnsweredAs(s, calls[i], e.key, e.output)
  }

  ghost predicate AnswersInv(s: Settings, calls: seq<Call>, cache: seq<Stored>) {
    && (forall i :: 0 <= i < |calls| ==> SoundCall(s, calls[i]))
    && (forall i :: 0 <= i < |cache| ==> SoundEntry(s, calls, cache[i]))
  }

  /** Answered calls are never changed or removed, so stored results stay sound. */
  lemma EntriesStaySound(s: Settings, calls: seq<Call>, after: seq<Call>, cache: seq<Stored>)
    requires |calls| <= |after| && forall i :: 0 <= i < |calls| && calls[i].phase.Answered? ==> after[i] == calls[i]
    requires forall k :: 0 <= k < |cache| ==> SoundEntry(s, calls, cache[k])
    ensures forall k :: 0 <= k < |cache| ==> SoundEntry(s, after, cache[k])
  {
    forall k | 0 <= k < |cache|
      ensures SoundEntry(s, after, cache[k])
    {
      assert SoundEntry(s, calls, cache[k]);
      var i :| 0 <= i < |calls| && AnsweredAs(s, calls[i], cache[k].key, cache[k].output);
      assert AnsweredAs(s, after[i], cache[k].key, cache[k].output);
    }
  }

  lemma JudgedIsValidated(s: Settings, call: Call, reply: Reply)
    requires JudgeReply(s, call.request.feature, call.context, reply).Ok?
    ensures Validated(s, call.request.feature, call.context,
              JudgeReply(s, call.request.feature, call.context, reply).value)
  {
    var raw := s.parse(reply.text.value).value;
    assert s.validate(call.request.feature, raw, call.context)
             == Ok(JudgeReply(s, call.request.feature, call.context, reply).value);
  }

  // ---------------------------------------------------------------- the invariant

  ghost predicate LedgerInv(s: Settings, l: Ledger) {
    Balanced(l) && WithinPlans(l, s.plan)
  }

  ghost predicate Inv(s: Settings, w: World) {
    && GateInv(s, w.gate, w.calls)
    && RowsInv(w.ledger.rows, w.calls, w.ours, w.stuck, w.charged)
    && AnswersInv(s, w.calls, w.cache)
    && LedgerInv(s, w.ledger)
  }

  lemma InitiallySafe(s: Settings)
    ensures Inv(s, EMPTY_WORLD)
  {
    assert G.Total(map[]) == 0;
  }

  lemma SettleKeepsLedger(s: Settings, l: Ledger, i: nat)
    requires LedgerInv(s, l)
    ensures LedgerInv(s, Consume(l, i)) && LedgerInv(s, Release(l, i))
  {
    ConsumeCommits(l, i);
    ReleaseCommits(l, i);
    SettlingWithinPlans(l, s.plan, i);
  }

  lemma ReserveKeepsLedger(s: Settings, l: Ledger, user: string, kind: Kind, resource: string)
    requires LedgerInv(s, l) && (kind.AIRequest? ==> CanUseAI(s.plan(user), l, user))
    ensures LedgerInv(s, Reserve(l, user, kind, resource))
  {
    ReserveCommits(l, user, kind, resource);
    ReserveWithinPlans(l, s.plan, user, kind, resource);
  }

  /** What a failed entry leaves behind: a row released at once, or stuck. */
  lemma FailedEntryKeepsRows(w: World, r: Ask, releaseThrows: bool)
    requires RowsInv(w.ledger.rows, w.calls, w.ours, w.stuck, w.charged)
    ensures var row := |w.ledger.rows|;
            var next := Undo(Reserved(w, r), row, releaseThrows);
            RowsInv(next.ledger.rows, w.calls, next.ours, next.stuck, next.charged)
  {
    var rows, row := w.ledger.rows, |w.ledger.rows|;
    var made := Reservation(r.user, AIRequest, r.source.resourceId, Open);
    if releaseThrows {
      UndoneEntryKeepsRows(rows, w.calls, w.ours, w.stuck, w.charged, made);
    } else {
      UndoneEntryKeepsRows(rows, w.calls, w.ours, w.stuck, w.charged, made.(status := Released));
      assert (rows + [made])[row := made.(status := Released)] == rows + [made.(status := Released)];
    }
  }

  lemma FailedEntryKeepsInv(s: Settings, w: World, r: Ask, releaseThrows: bool)
    requires Inv(s, w) && CanUseAI(s.plan(r.user), w.ledger, r.user)
    ensures var row := |w.ledger.rows|;
            Inv(s, Undo(Reserved(w, r), row, releaseThrows))
  {
    FailedEntryKeepsRows(w, r, releaseThrows);
    ReserveKeepsLedger(s, w.ledger, r.user, AIRequest, r.source.resourceId);
    SettleKeepsLedger(s, Reserve(w.ledger, r.user, AIRequest, r.source.resourceId), |w.ledger.rows|);
  }

  lemma EnterKeepsInv(s: Settings, w: World, r: Ask, c: Context, f: BeginFaults)
    requires Inv(s, w) && s.build(r) == Ok(c) && CanUseAI(s.plan(r.user), w.ledger, r.user)
    ensures Inv(s, Enter(s, w, r, c, f).0)
  {
    var row, slot := |w.ledger.rows|, |w.gate.slots|;
    var gate := G.Acquire(w.gate, r.user, s.limits);
    if gate.Err? {
      FailedEntryKeepsInv(s, w, r, f.releaseThrows);
    } else if f.promptThrows {
      FailedEntryKeepsInv(s, w, r, f.releaseThrows);
      PassThroughKeepsGate(s, w.gate, w.calls, r.user);
    } else {
      SuspendKeepsInv(s, w, r, c);
    }
  }

  lemma SuspendKeepsInv(s: Settings, w: World, r: Ask, c: Context)
    requires Inv(s, w) && s.build(r) == Ok(c) && CanUseAI(s.plan(r.user), w.ledger, r.user)
    requires G.Acquire(w.gate, r.user, s.limits).Ok?
    ensures var row, slot := |w.ledger.rows|, |w.gate.slots|;
            Inv(s, Reserved(w, r).(gate := G.Acquire(w.gate, r.user, s.limits).value,
                                   calls := w.calls + [Call(r, c, row, slot, Waiting)]))
  {
    var call := Call(r, c, |w.ledger.rows|, |w.gate.slots|, Waiting);
    EnterKeepsGate(s, w.gate, w.calls, call);
    EnterKeepsRows(w.ledger.rows, w.calls, w.ours, w.stuck, w.charged, call,
      Reservation(r.user, AIRequest, r.source.resourceId, Open));
    ReserveKeepsLedger(s, w.ledger, r.user, AIRequest, r.source.resourceId);
    EntriesStaySound(s, w.calls, w.calls + [call], w.cache);
  }

  lemma BeginKeepsInv(s: Settings, w: World, r: Ask, now: int, f: BeginFaults)
    requires Inv(s, w)
    ensures Inv(s, Begin(s, w, r, now, f).0)
  {
    var built := s.build(r);
    if built.Ok? && CanUseAI(s.plan(r.user), w.ledger, r.user) {
      EnterKeepsInv(s, w, r, built.value, f);
    }
  }

  lemma SettleKeepsRows(w: World, i: nat, consume: bool)
    requires RowsInv(w.ledger.rows, w.calls, w.ours, w.stuck, w.charged)
    ensures var l := if consume then Consume(w.ledger, i) else Release(w.ledger, i);
            RowsInv(l.rows, w.calls, w.ours, w.stuck, w.charged)
  {
    if Settleable(w.ledger, i) {
      SettlingKeepsRows(w.ledger.rows, w.calls, w.ours, w.stuck, w.charged, i, if consume then Consumed else Released);
    }
  }

  lemma StuckKeepsRows(w: World, row: nat)
    requires RowsInv(w.ledger.rows, w.calls, w.ours, w.stuck, w.charged)
    ensures RowsInv(w.ledger.rows, w.calls, w.ours, w.stuck + {row}, w.charged)
  {
  }

  lemma UndoKeepsRows(w: World, row: nat, releaseThrows: bool)
    requires RowsInv(w.ledger.rows, w.calls, w.ours, w.stuck, w.charged)
    ensures var next := Undo(w, row, releaseThrows);
            RowsInv(next.ledger.rows, next.calls, next.ours, next.stuck, next.charged)
  {
    if releaseThrows {
      StuckKeepsRows(w, row);
    } else {
      SettleKeepsRows(w, row, false);
    }
  }

  lemma RefusedKeepsRows(w: World, i: nat, releaseThrows: bool, code: Code)
    requires RowsInv(w.ledger.rows, w.calls, w.ours, w.stuck, w.charged)
    requires i < |w.calls| && w.calls[i].phase.Waiting?
    ensures var next := Undo(w, w.calls[i].row, releaseThrows);
            RowsInv(next.ledger.rows, w.calls[i := w.calls[i].(phase := Refused(code))], next.ours, next.stuck,
              next.charged)
  {
    var row := w.calls[i].row;
    var next := Undo(w, row, releaseThrows);
    UndoKeepsRows(w, row, releaseThrows);
    RefusalKeepsRows(next.ledger.rows, w.calls, next.ours, next.stuck, next.charged, i, code);
  }

  lemma AnsweredKeepsRows(w: World, i: nat, phase: Phase)
    requires RowsInv(w.ledger.rows, w.calls, w.ours, w.stuck, w.charged)
    requires i < |w.calls| && w.calls[i].phase.Waiting? && Charges(phase)
    ensures var next := Charge(w, w.calls[i].row);
            RowsInv(next.ledger.rows, w.calls[i := w.calls[i].(phase := phase)], next.ours, next.stuck, next.charged)
  {
    var row := w.calls[i].row;
    var next := Charge(w, row);
    SettleKeepsRows(w, row, true);
    var more := if Settleable(w.ledger, row) then {row} else {};
    AnswerKeepsRows(next.ledger.rows, w.calls, w.ours, w.stuck, w.charged, more, i, phase);
    assert w.charged + more == next.charged;
  }

  /** Releasing after the charge changes nothing but the record of a failed write. */
  lemma ReleaseAfterCharge(w: World, row: nat, releaseThrows: bool)
    requires row < |w.ledger.rows|
    ensures var charged := Charge(w, row);
            Undo(charged, row, releaseThrows) == charged.(stuck := if releaseThrows then w.stuck + {row} else w.stuck)
  {
    ConsumeCommits(w.ledger, row);
  }

  lemma FinishKeepsRows(s: Settings, w: World, i: nat, reply: Reply, expiresAt: int, f: EndFaults)
    requires RowsInv(w.ledger.rows, w.calls, w.ours, w.stuck, w.charged)
    requires CanResume(w, i)
    ensures var next := Finish(s, w, i, reply, expiresAt, f);
            RowsInv(next.ledger.rows, next.calls, next.ours, next.stuck, next.charged)
  {
    var call := w.calls[i];
    var (ended, phase) := Conclude(s, w, call, reply, expiresAt, f);
    if phase.Refused? {
      RefusedKeepsRows(w, i, f.releaseThrows, phase.code);
    } else {
      AnsweredKeepsRows(w, i, phase);
      ReleaseAfterCharge(w, call.row, f.releaseThrows);
      if phase.Unsaved? && f.releaseThrows {
        StuckKeepsRows(Charge(w, call.row).(calls := w.calls[i := call.(phase := phase)]), call.row);
      }
    }
  }

  lemma FinishKeepsAnswers(s: Settings, w: World, i: nat, reply: Reply, expiresAt: int, f: EndFaults)
    requires AnswersInv(s, w.calls, w.cache) && CanResume(w, i)
    ensures var next := Finish(s, w, i, reply, expiresAt, f);
            AnswersInv(s, next.calls, next.cache)
  {
    var call := w.calls[i];
    var next := Finish(s, w, i, reply, expiresAt, f);
    assert SoundCall(s, call);
    EntriesStaySound(s, w.calls, next.calls, w.cache);
    if JudgeReply(s, call.request.feature, call.context, reply).Ok? {
      JudgedIsValidated(s, call, reply);
    }
    if |next.cache| > |w.cache| {
      var entry := next.cache[|w.cache|];
      assert AnsweredAs(s, next.calls[i], entry.key, entry.output);
      assert SoundEntry(s, next.calls, entry);
    }
    assert SoundCall(s, next.calls[i]);
    assert forall j :: 0 <= j < |next.calls| && j != i ==> next.calls[j] == w.calls[j];
  }

  lemma FinishKeepsLedger(s: Settings, w: World, i: nat, reply: Reply, expiresAt: int, f: EndFaults)
    requires LedgerInv(s, w.ledger) && CanResume(w, i)
    ensures LedgerInv(s, Finish(s, w, i, reply, expiresAt, f).ledger)
  {
    var row := w.calls[i].row;
    SettleKeepsLedger(s, w.ledger, row);
    SettleKeepsLedger(s, Consume(w.ledger, row), row);
  }

  lemma FinishKeepsInv(s: Settings, w: World, i: nat, reply: Reply, expiresAt: int, f: EndFaults)
    requires Inv(s, w) && CanResume(w, i)
    ensures Inv(s, Finish(s, w, i, reply, expiresAt, f))
  {
    FinishKeepsGate(s, w.gate, w.calls, i, Finish(s, w, i, reply, expiresAt, f).calls[i].phase);
    FinishKeepsRows(s, w, i, reply, expiresAt, f);
    FinishKeepsAnswers(s, w, i, reply, expiresAt, f);
    FinishKeepsLedger(s, w, i, reply, expiresAt, f);
  }

  lemma ElsewhereKeepsInv(s: Settings, w: World, op: Op)
    requires Inv(s, w) && !op.Start? && !op.Resume?
    ensures Inv(s, Apply(s, w, op))
  {
    match op
    case ReserveElsewhere(user, kind, resource) =>
      if !kind.AIRequest? || CanUseAI(s.plan(user), w.ledger, user) {
        OtherRowKeepsRows(w.ledger.rows, w.calls, w.ours, w.stuck, w.charged, Reservation(user, kind, resource, Open));
        ReserveKeepsLedger(s, w.ledger, user, kind, resource);
      }
    case ConsumeFor(resource) =>
      var row := Latest(w.ledger.rows, resource);
      if row.Some? {
        SettleKeepsRows(w, row.value, true);
        SettleKeepsLedger(s, w.ledger, row.value);
      }
    case ReleaseFor(resource) =>
      var row := Latest(w.ledger.rows, resource);
      if row.Some? {
        SettleKeepsRows(w, row.value, false);
        SettleKeepsLedger(s, w.ledger, row.value);
      }
    case Sweep(row) =>
      SettleKeepsRows(w, row, false);
      SettleKeepsLedger(s, w.ledger, row);
    case Forget(i) =>
  }

  lemma StepKeepsInv(s: Settings, w: World, op: Op)
    requires Inv(s, w)
    ensures Inv(s, Apply(s, w, op))
  {
    match op
    case Start(r, now, f) =>
      BeginKeepsInv(s, w, r, now, f);
    case Resume(i, reply, expiresAt, f) =>
      if CanResume(w, i) {
        FinishKeepsInv(s, w, i, reply, expiresAt, f);
      }
    case _ =>
      ElsewhereKeepsInv(s, w, op);
  }

  /** The invariant holds after every interleaving of starts, replies, faults and
      outside work. */
  lemma {:induction false} EveryRunIsSafe(s: Settings, w: World, ops: seq<Op>)
    requires Inv(s, w)
    ensures Inv(s, After(s, w, ops))
    decreases |ops|
  {
    if ops != [] {
      StepKeepsInv(s, w, ops[0]);
      EveryRunIsSafe(s, Apply(s, w, ops[0]), ops[1..]);
    }
  }
}
