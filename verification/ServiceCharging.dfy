/** Who pays, over whole runs: the reservations consumed are those of validated
    answers exactly as long as the rest of the system leaves ours alone. */
module ServiceCharging {
  import opened Seqs
  import opened AIErrors
  import opened Quota
  import opened Service
  import opened ServiceSafety

  // ---------------------------------------------------------------- properties of runs

  /** `p` holds at the start of the run and after each of its steps. */
  ghost predicate Always(s: Settings, w: World, ops: seq<Op>, p: World -> bool)
    decreases |ops|
  {
    p(w) && (ops != [] ==> Always(s, Apply(s, w, ops[0]), ops[1..], p))
  }

  /** Every step of the run has `q`, in the state it is taken from. */
  ghost predicate EachStep(s: Settings, w: World, ops: seq<Op>, q: (World, Op) -> bool)
    decreases |ops|
  {
    ops == [] || (q(w, ops[0]) && EachStep(s, Apply(s, w, ops[0]), ops[1..], q))
  }

  lemma {:induction false} AlwaysAtEveryPrefix(s: Settings, w: World, ops: seq<Op>, p: World -> bool)
    ensures Always(s, w, ops, p) <==> forall n :: 0 <= n <= |ops| ==> p(After(s, w, ops[..n]))
    decreases |ops|
  {
    assert ops[..0] == [];
    if ops != [] {
      var next, rest := Apply(s, w, ops[0]), ops[1..];
      AlwaysAtEveryPrefix(s, next, rest, p);
      forall n | 1 <= n <= |ops|
        ensures After(s, w, ops[..n]) == After(s, next, rest[..n - 1])
      {
        assert ops[..n][0] == ops[0] && ops[..n][1..] == rest[..n - 1];
      }
      if forall n :: 0 <= n <= |ops| ==> p(After(s, w, ops[..n])) {
        forall m | 0 <= m <= |rest|
          ensures p(After(s, next, rest[..m]))
        {
          assert p(After(s, w, ops[..m + 1]));
        }
        assert p(After(s, w, ops[..0]));
      }
      if Always(s, w, ops, p) {
        forall n | 0 <= n <= |ops|
          ensures p(After(s, w, ops[..n]))
        {
          if n > 0 {
            assert p(After(s, next, rest[..n - 1]));
          }
        }
      }
    }
  }

  /** A step keeps `p` exactly when it has `q`. */
  ghost predicate KeptExactly(s: Settings, p: World -> bool, q: (World, Op) -> bool) {
    forall w: World, op: Op :: Inv(s, w) && p(w) ==> (p(Apply(s, w, op)) <==> q(w, op))
  }

  /** Then a run keeps it throughout exactly when every step has `q`. */
  lemma {:induction false} RunKeepsExactly(s: Settings, w: World, ops: seq<Op>, p: World -> bool,
                                           q: (World, Op) -> bool)
    requires Inv(s, w) && p(w) && KeptExactly(s, p, q)
    ensures Always(s, w, ops, p) <==> EachStep(s, w, ops, q)
    decreases |ops|
  {
    if ops != [] {
      var next := Apply(s, w, ops[0]);
      StepKeepsInv(s, w, ops[0]);
      assert p(next) <==> q(w, ops[0]);
      if p(next) {
        RunKeepsExactly(s, next, ops[1..], p, q);
      }
    }
  }

  lemma {:induction false} AlwaysAtTheEnd(s: Settings, w: World, ops: seq<Op>, p: World -> bool)
    requires Always(s, w, ops, p)
    ensures p(After(s, w, ops))
    decreases |ops|
  {
    if ops != [] {
      AlwaysAtTheEnd(s, Apply(s, w, ops[0]), ops[1..], p);
    }
  }

  // ---------------------------------------------------------------- outside steps

  function OpenRow(l: Ledger, i: Option<nat>): Option<nat> {
    if i.Some? && Settleable(l, i.value) then i else None
  }

  /** The open reservation an outside step settles, if there is one. */
  function Settles(w: World, op: Op): Option<nat> {
    match op
    case ConsumeFor(resource) => OpenRow(w.ledger, Latest(w.ledger.rows, resource))
    case ReleaseFor(resource) => OpenRow(w.ledger, Latest(w.ledger.rows, resource))
    case Sweep(row) => OpenRow(w.ledger, Some(row))
    case _ => None
  }

  /** The step settles no reservation a call is waiting on. */
  ghost predicate Spares(w: World, op: Op) {
    Settles(w, op).Some? ==> !AwaitsRow(w.calls, Settles(w, op).value)
  }

  function Settled(rows: seq<Reservation>, i: nat, consume: bool): seq<Reservation>
    requires i < |rows|
  {
    rows[i := rows[i].(status := if consume then Consumed else Released)]
  }

  /** What an outside step does to the ledger, and that it does nothing else. */
  lemma OutsideStep(s: Settings, w: World, op: Op)
    requires op.ConsumeFor? || op.ReleaseFor? || op.Sweep?
    ensures var next, hit := Apply(s, w, op), Settles(w, op);
            && next == w.(ledger := next.ledger)
            && (hit.None? ==> next == w)
            && (hit.Some? ==> hit.value < |w.ledger.rows| && w.ledger.rows[hit.value].status == Open)
            && (hit.Some? ==> next.ledger.rows == Settled(w.ledger.rows, hit.value, op.ConsumeFor?))
  {
  }

  // ---------------------------------------------------------------- waiting calls keep their reservations

  ghost predicate WaitingRowsOpen(w: World) {
    forall i :: 0 <= i < |w.calls| && w.calls[i].phase.Waiting? && w.calls[i].row < |w.ledger.rows| ==>
      w.ledger.rows[w.calls[i].row].status == Open
  }

  lemma FinishKeepsOtherRows(s: Settings, w: World, i: nat, reply: Reply, expiresAt: int, f: EndFaults, r: nat)
    requires CanResume(w, i) && r != w.calls[i].row && r < |w.ledger.rows|
    ensures var next := Finish(s, w, i, reply, expiresAt, f);
            |next.ledger.rows| == |w.ledger.rows| && next.ledger.rows[r] == w.ledger.rows[r]
  {
  }

  /** A start adds at most one reservation, and at most one call, which awaits it. */
  predicate Extends(w: World, next: World) {
    && w.ledger.rows <= next.ledger.rows
    && (next.calls == w.calls
        || (|next.ledger.rows| > |w.ledger.rows| && next.ledger.rows[|w.ledger.rows|].status == Open
            && |next.calls| == |w.calls| + 1 && w.calls <= next.calls && next.calls[|w.calls|].row == |w.ledger.rows|))
  }

  lemma StartExtends(s: Settings, w: World, r: Ask, now: int, f: BeginFaults)
    ensures var next := Begin(s, w, r, now, f).0;
            Extends(w, next) && (!f.releaseThrows ==> next.stuck == w.stuck)
  {
  }

  lemma ExtendingKeepsWaitingOpen(s: Settings, w: World, next: World)
    requires Inv(s, w) && WaitingRowsOpen(w) && Extends(w, next)
    ensures WaitingRowsOpen(next)
  {
    forall i | 0 <= i < |next.calls| && next.calls[i].phase.Waiting? && next.calls[i].row < |next.ledger.rows|
      ensures next.ledger.rows[next.calls[i].row].status == Open
    {
      if i < |w.calls| {
        assert next.calls[i] == w.calls[i] && w.calls[i].row in w.ours;
        assert next.ledger.rows[w.calls[i].row] == w.ledger.rows[w.calls[i].row];
      }
    }
  }

  lemma FinishKeepsWaitingOpen(s: Settings, w: World, i: nat, reply: Reply, expiresAt: int, f: EndFaults)
    requires Inv(s, w) && WaitingRowsOpen(w) && CanResume(w, i)
    ensures var next := Finish(s, w, i, reply, expiresAt, f);
            WaitingRowsOpen(next) && (!f.releaseThrows ==> next.stuck == w.stuck)
  {
    var next := Finish(s, w, i, reply, expiresAt, f);
    forall j | 0 <= j < |next.calls| && next.calls[j].phase.Waiting?
      ensures next.calls[j].row < |next.ledger.rows| && next.ledger.rows[next.calls[j].row].status == Open
    {
      assert j != i && next.calls[j] == w.calls[j];
      FinishKeepsOtherRows(s, w, i, reply, expiresAt, f, w.calls[j].row);
    }
  }

  lemma StartKeepsWaitingOpen(s: Settings, w: World, r: Ask, now: int, f: BeginFaults)
    requires Inv(s, w) && WaitingRowsOpen(w)
    ensures var next := Begin(s, w, r, now, f).0;
            WaitingRowsOpen(next) && (!f.releaseThrows ==> next.stuck == w.stuck)
  {
    StartExtends(s, w, r, now, f);
    ExtendingKeepsWaitingOpen(s, w, Begin(s, w, r, now, f).0);
  }

  lemma ReserveKeepsWaitingOpen(s: Settings, w: World, user: string, kind: Kind, resource: string)
    requires Inv(s, w) && WaitingRowsOpen(w)
    ensures WaitingRowsOpen(w.(ledger := Reserve(w.ledger, user, kind, resource)))
  {
    ExtendingKeepsWaitingOpen(s, w, w.(ledger := Reserve(w.ledger, user, kind, resource)));
  }

  lemma OutsideSparesExactly(s: Settings, w: World, op: Op)
    requires Inv(s, w) && WaitingRowsOpen(w)
    requires op.ConsumeFor? || op.ReleaseFor? || op.Sweep?
    ensures WaitingRowsOpen(Apply(s, w, op)) <==> Spares(w, op)
  {
    OutsideStep(s, w, op);
    var next, hit := Apply(s, w, op), Settles(w, op);
    if !Spares(w, op) {
      var i :| 0 <= i < |w.calls| && w.calls[i].row == hit.value && w.calls[i].phase.Waiting?;
      assert next.calls[i].row == hit.value && next.ledger.rows[hit.value].status != Open;
    }
  }

  /** Given that every waiting call's reservation is open, a step keeps it so
      exactly when it spares them. */
  lemma StepSparesExactly(s: Settings, w: World, op: Op)
    requires Inv(s, w) && WaitingRowsOpen(w)
    ensures WaitingRowsOpen(Apply(s, w, op)) <==> Spares(w, op)
  {
    match op
    case Start(r, now, f) =>
      StartKeepsWaitingOpen(s, w, r, now, f);
    case Resume(i, reply, expiresAt, f) =>
      if CanResume(w, i) {
        FinishKeepsWaitingOpen(s, w, i, reply, expiresAt, f);
      }
    case ReserveElsewhere(user, kind, resource) =>
      ReserveKeepsWaitingOpen(s, w, user, kind, resource);
    case Forget(i) =>
    case _ =>
      OutsideSparesExactly(s, w, op);
  }

  /** Over every run, the waiting calls' reservations stay open throughout exactly
      when every outside step spares them. */
  lemma RunSparesExactly(s: Settings, ops: seq<Op>)
    ensures (forall n :: 0 <= n <= |ops| ==> WaitingRowsOpen(After(s, EMPTY_WORLD, ops[..n])))
       <==> EachStep(s, EMPTY_WORLD, ops, Spares)
  {
    InitiallySafe(s);
    forall w: World, op: Op | Inv(s, w) && WaitingRowsOpen(w)
      ensures WaitingRowsOpen(Apply(s, w, op)) <==> Spares(w, op)
    {
      StepSparesExactly(s, w, op);
    }
    RunKeepsExactly(s, EMPTY_WORLD, ops, WaitingRowsOpen, Spares);
    AlwaysAtEveryPrefix(s, EMPTY_WORLD, ops, WaitingRowsOpen);
  }

  /** No write that gives a reservation back fails. */
  predicate ReleasesWork(ops: seq<Op>) {
    forall op :: op in ops ==> (op.Start? ==> !op.begin.releaseThrows) && (op.Resume? ==> !op.end.releaseThrows)
  }

  lemma {:induction false} NothingStuck(s: Settings, w: World, ops: seq<Op>)
    requires w.stuck == {} && ReleasesWork(ops)
    ensures After(s, w, ops).stuck == {}
    decreases |ops|
  {
    if ops != [] {
      assert ops[0] in ops && forall op :: op in ops[1..] ==> op in ops;
      StepLeavesStuck(s, w, ops[0]);
      NothingStuck(s, Apply(s, w, ops[0]), ops[1..]);
    }
  }

  lemma StepLeavesStuck(s: Settings, w: World, op: Op)
    requires (op.Start? ==> !op.begin.releaseThrows) && (op.Resume? ==> !op.end.releaseThrows)
    ensures Apply(s, w, op).stuck == w.stuck
  {
    if op.Start? {
      StartExtends(s, w, op.request, op.now, op.begin);
    }
  }

  /** While outside steps spare the waiting calls, this process's open reservations
      are exactly those of its waiting calls, one each, and those whose release could
      not be written. */
  lemma ReservationsAreWaitingCalls(s: Settings, ops: seq<Op>, r: nat)
    requires EachStep(s, EMPTY_WORLD, ops, Spares)
    ensures var w := After(s, EMPTY_WORLD, ops);
            var held := r in w.ours && r < |w.ledger.rows| && w.ledger.rows[r].status == Open;
            && (AwaitsRow(w.calls, r) ==> held)
            && (held ==> AwaitsRow(w.calls, r) || r in w.stuck)
            && (ReleasesWork(ops) ==> (held <==> AwaitsRow(w.calls, r)))
  {
    var w := After(s, EMPTY_WORLD, ops);
    InitiallySafe(s);
    EveryRunIsSafe(s, EMPTY_WORLD, ops);
    RunSparesExactly(s, ops);
    assert ops[..|ops|] == ops;
    if ReleasesWork(ops) {
      NothingStuck(s, EMPTY_WORLD, ops);
    }
  }

  // ---------------------------------------------------------------- who pays

  /** The step settles no reservation a call is waiting on, and consumes none of
      ours. */
  ghost predicate SparesOurs(w: World, op: Op) {
    var hit := Settles(w, op);
    hit.Some? ==> if op.ConsumeFor? then hit.value !in w.ours else !AwaitsRow(w.calls, hit.value)
  }

  /** Among our reservations the consumed ones are those of validated answers, and
      the waiting calls' are open. */
  ghost predicate PaysExactly(w: World) {
    && WaitingRowsOpen(w)
    && forall r :: r in w.ours && r < |w.ledger.rows| ==>
         (w.ledger.rows[r].status == Consumed <==> ChargesRow(w.calls, r))
  }

  lemma StartPaysExactly(s: Settings, w: World, r: Ask, now: int, f: BeginFaults)
    requires Inv(s, w) && PaysExactly(w)
    ensures PaysExactly(Begin(s, w, r, now, f).0)
  {
    StartKeepsWaitingOpen(s, w, r, now, f);
    StartAdds(s, w, r, now, f);
    AddingPaysExactly(s, w, Begin(s, w, r, now, f).0);
  }

  /** A start adds at most one reservation, unconsumed, and no finished call. */
  predicate Adds(w: World, next: World) {
    && w.ledger.rows <= next.ledger.rows && |next.ledger.rows| <= |w.ledger.rows| + 1
    && (|next.ledger.rows| > |w.ledger.rows| ==> next.ledger.rows[|w.ledger.rows|].status != Consumed)
    && next.ours <= w.ours + {|w.ledger.rows|}
    && (next.calls == w.calls
         || (|next.calls| == |w.calls| + 1 && w.calls <= next.calls && next.calls[|w.calls|].phase.Waiting?))
  }

  lemma StartAdds(s: Settings, w: World, r: Ask, now: int, f: BeginFaults)
    ensures Adds(w, Begin(s, w, r, now, f).0)
  {
  }

  lemma AddingChargesNone(w: World, next: World, r: nat)
    requires Adds(w, next)
    ensures ChargesRow(next.calls, r) <==> ChargesRow(w.calls, r)
  {
    if ChargesRow(w.calls, r) {
      var i :| 0 <= i < |w.calls| && w.calls[i].row == r && Charges(w.calls[i].phase);
      assert next.calls[i] == w.calls[i];
    }
    if ChargesRow(next.calls, r) {
      var i :| 0 <= i < |next.calls| && next.calls[i].row == r && Charges(next.calls[i].phase);
      assert next.calls[i] == w.calls[i];
    }
  }

  lemma AddingPaysExactly(s: Settings, w: World, next: World)
    requires Inv(s, w) && PaysExactly(w) && WaitingRowsOpen(next) && Adds(w, next)
    ensures PaysExactly(next)
  {
    forall r
      ensures ChargesRow(next.calls, r) <==> ChargesRow(w.calls, r)
    {
      AddingChargesNone(w, next, r);
    }
    forall r | r in next.ours && r < |next.ledger.rows|
      ensures next.ledger.rows[r].status == Consumed <==> ChargesRow(next.calls, r)
    {
      if r == |w.ledger.rows| {
        assert forall i :: 0 <= i < |w.calls| ==> w.calls[i].row in w.ours && w.calls[i].row < |w.ledger.rows|;
        assert !ChargesRow(w.calls, r);
      } else {
        assert next.ledger.rows[r] == w.ledger.rows[r];
      }
    }
  }

  lemma FinishPaysExactly(s: Settings, w: World, i: nat, reply: Reply, expiresAt: int, f: EndFaults)
    requires Inv(s, w) && PaysExactly(w) && CanResume(w, i)
    ensures PaysExactly(Finish(s, w, i, reply, expiresAt, f))
  {
    FinishKeepsWaitingOpen(s, w, i, reply, expiresAt, f);
    FinishSettlesOne(s, w, i, reply, expiresAt, f);
    SettlingOnePaysExactly(s, w, Finish(s, w, i, reply, expiresAt, f), i);
  }

  /** The reply of call `i` touches that call and its reservation only; the
      reservation, open before, is consumed exactly for a validated answer. */
  ghost predicate SettlesOne(w: World, next: World, i: nat)
    requires i < |w.calls|
  {
    var row := w.calls[i].row;
    && |next.calls| == |w.calls| && next.ours == w.ours && |next.ledger.rows| == |w.ledger.rows|
    && (forall j :: 0 <= j < |w.calls| && j != i ==> next.calls[j] == w.calls[j])
    && next.calls[i].row == row
    && (forall r :: 0 <= r < |w.ledger.rows| && r != row ==> next.ledger.rows[r] == w.ledger.rows[r])
    && (row < |w.ledger.rows| ==> (next.ledger.rows[row].status == Consumed <==> Charges(next.calls[i].phase)))
  }

  lemma FinishSettlesOne(s: Settings, w: World, i: nat, reply: Reply, expiresAt: int, f: EndFaults)
    requires CanResume(w, i) && (w.calls[i].row < |w.ledger.rows| ==> w.ledger.rows[w.calls[i].row].status == Open)
    ensures SettlesOne(w, Finish(s, w, i, reply, expiresAt, f), i)
  {
  }

  lemma SettlingOnePaysExactly(s: Settings, w: World, next: World, i: nat)
    requires Inv(s, w) && PaysExactly(w) && WaitingRowsOpen(next)
    requires i < |w.calls| && w.calls[i].phase.Waiting? && SettlesOne(w, next, i)
    ensures PaysExactly(next)
  {
    forall r | r in next.ours && r < |next.ledger.rows|
      ensures next.ledger.rows[r].status == Consumed <==> ChargesRow(next.calls, r)
    {
      if r == w.calls[i].row {
        assert forall j :: 0 <= j < |next.calls| && j != i ==> next.calls[j].row != r;
        assert ChargesRow(next.calls, r) <==> Charges(next.calls[i].phase);
      } else {
        if ChargesRow(w.calls, r) {
          var j :| 0 <= j < |w.calls| && w.calls[j].row == r && Charges(w.calls[j].phase);
          assert next.calls[j] == w.calls[j];
        }
        if ChargesRow(next.calls, r) {
          var j :| 0 <= j < |next.calls| && next.calls[j].row == r && Charges(next.calls[j].phase);
          assert next.calls[j] == w.calls[j];
        }
      }
    }
  }

  lemma OutsidePaysExactly(s: Settings, w: World, op: Op)
    requires Inv(s, w) && PaysExactly(w)
    requires op.ConsumeFor? || op.ReleaseFor? || op.Sweep?
    ensures PaysExactly(Apply(s, w, op)) <==> SparesOurs(w, op)
  {
    OutsideStep(s, w, op);
    OutsideSparesExactly(s, w, op);
    var next, hit := Apply(s, w, op), Settles(w, op);
    if hit.Some? {
      assert forall r :: 0 <= r < |w.ledger.rows| && r != hit.value ==> next.ledger.rows[r] == w.ledger.rows[r];
      assert AwaitsRow(w.calls, hit.value) ==> hit.value in w.ours;
      assert hit.value in w.ours ==> !ChargesRow(w.calls, hit.value);
    }
  }

  lemma StepPaysExactly(s: Settings, w: World, op: Op)
    requires Inv(s, w) && PaysExactly(w)
    ensures PaysExactly(Apply(s, w, op)) <==> SparesOurs(w, op)
  {
    match op
    case Start(r, now, f) =>
      StartPaysExactly(s, w, r, now, f);
    case Resume(i, reply, expiresAt, f) =>
      if CanResume(w, i) {
        FinishPaysExactly(s, w, i, reply, expiresAt, f);
      }
    case ReserveElsewhere(user, kind, resource) =>
      ReservingElsewherePaysExactly(s, w, user, kind, resource);
    case Forget(i) =>
    case _ =>
      OutsidePaysExactly(s, w, op);
  }

  lemma ReservingElsewherePaysExactly(s: Settings, w: World, user: string, kind: Kind, resource: string)
    requires Inv(s, w) && PaysExactly(w)
    ensures PaysExactly(w.(ledger := Reserve(w.ledger, user, kind, resource)))
  {
    ReserveKeepsWaitingOpen(s, w, user, kind, resource);
    AddingPaysExactly(s, w, w.(ledger := Reserve(w.ledger, user, kind, resource)));
  }

  /** Over every run, at every moment the consumed reservations of this process are
      exactly those of its validated answers, exactly when outside steps settle no
      waiting call's reservation and consume none of ours. */
  lemma RunPaysExactly(s: Settings, ops: seq<Op>)
    ensures (forall n :: 0 <= n <= |ops| ==> PaysExactly(After(s, EMPTY_WORLD, ops[..n])))
       <==> EachStep(s, EMPTY_WORLD, ops, SparesOurs)
  {
    InitiallySafe(s);
    forall w: World, op: Op | Inv(s, w) && PaysExactly(w)
      ensures PaysExactly(Apply(s, w, op)) <==> SparesOurs(w, op)
    {
      StepPaysExactly(s, w, op);
    }
    RunKeepsExactly(s, EMPTY_WORLD, ops, PaysExactly, SparesOurs);
    AlwaysAtEveryPrefix(s, EMPTY_WORLD, ops, PaysExactly);
  }

  /** In such a run each validated answer has consumed its own reservation, and no
      other call's reservation is consumed. */
  lemma AnswersPayOnce(s: Settings, ops: seq<Op>, i: nat)
    requires EachStep(s, EMPTY_WORLD, ops, SparesOurs) && i < |After(s, EMPTY_WORLD, ops).calls|
    ensures var w := After(s, EMPTY_WORLD, ops);
            && w.calls[i].row < |w.ledger.rows|
            && (w.ledger.rows[w.calls[i].row].status == Consumed <==> Charges(w.calls[i].phase))
            && (forall j :: 0 <= j < |w.calls| && j != i ==> w.calls[j].row != w.calls[i].row)
  {
    var w := After(s, EMPTY_WORLD, ops);
    InitiallySafe(s);
    EveryRunIsSafe(s, EMPTY_WORLD, ops);
    RunPaysExactly(s, ops);
    assert ops[..|ops|] == ops;
    assert PaysExactly(w) && w.calls[i].row in w.ours;
    if Charges(w.calls[i].phase) {
      assert ChargesRow(w.calls, w.calls[i].row);
    }
  }

  // ---------------------------------------------------------------- whatever the others do

  /** The reservations outside steps consumed over a run. */
  function ConsumedOutside(s: Settings, w: World, ops: seq<Op>): set<nat>
    decreases |ops|
  {
    if ops == [] then {}
    else
      (if ops[0].ConsumeFor? && Settles(w, ops[0]).Some? then {Settles(w, ops[0]).value} else {})
      + ConsumedOutside(s, Apply(s, w, ops[0]), ops[1..])
  }

  predicate IsConsumedRow(w: World, r: nat) {
    r < |w.ledger.rows| && w.ledger.rows[r].status == Consumed
  }

  lemma FinishConsumes(s: Settings, w: World, i: nat, reply: Reply, expiresAt: int, f: EndFaults, r: nat)
    requires CanResume(w, i)
    ensures var next := Finish(s, w, i, reply, expiresAt, f);
            && (IsConsumedRow(next, r) && !IsConsumedRow(w, r) ==> r in next.charged)
            && (IsConsumedRow(w, r) ==> IsConsumedRow(next, r) && (r in next.charged ==> r in w.charged))
  {
  }

  lemma StartConsumes(s: Settings, w: World, r: Ask, now: int, f: BeginFaults, row: nat)
    ensures var next := Begin(s, w, r, now, f).0;
            next.charged == w.charged && (IsConsumedRow(next, row) <==> IsConsumedRow(w, row))
  {
  }

  /** A reservation becomes consumed by a reply or by an outside step, for good. */
  lemma StepConsumes(s: Settings, w: World, op: Op, r: nat)
    requires Inv(s, w)
    ensures var next := Apply(s, w, op);
            var outside := op.ConsumeFor? && Settles(w, op) == Some(r);
            && (IsConsumedRow(next, r) <==> IsConsumedRow(w, r) || outside || r in next.charged)
            && (IsConsumedRow(w, r) || outside ==> (r in next.charged <==> r in w.charged))
            && (outside ==> !IsConsumedRow(w, r))
  {
    var next := Apply(s, w, op);
    StepKeepsInv(s, w, op);
    match op
    case Start(ask, now, f) =>
      StartConsumes(s, w, ask, now, f, r);
    case Resume(i, reply, expiresAt, f) =>
      if CanResume(w, i) {
        FinishConsumes(s, w, i, reply, expiresAt, f, r);
        FinishOnlyAddsCharges(s, w, i, reply, expiresAt, f);
      }
    case ReserveElsewhere(user, kind, resource) =>
    case Forget(i) =>
    case _ =>
      OutsideConsumes(s, w, op, r);
  }

  lemma OutsideConsumes(s: Settings, w: World, op: Op, r: nat)
    requires Inv(s, w)
    requires op.ConsumeFor? || op.ReleaseFor? || op.Sweep?
    ensures var next := Apply(s, w, op);
            var outside := op.ConsumeFor? && Settles(w, op) == Some(r);
            && next.charged == w.charged
            && (IsConsumedRow(next, r) <==> IsConsumedRow(w, r) || outside)
            && (outside ==> !IsConsumedRow(w, r))
  {
    OutsideStep(s, w, op);
  }

  lemma FinishOnlyAddsCharges(s: Settings, w: World, i: nat, reply: Reply, expiresAt: int, f: EndFaults)
    requires CanResume(w, i)
    ensures w.charged <= Finish(s, w, i, reply, expiresAt, f).charged
  {
  }

  lemma {:induction false} ConsumedFrom(s: Settings, w: World, ops: seq<Op>, r: nat)
    requires Inv(s, w)
    ensures var end := After(s, w, ops);
            && (IsConsumedRow(end, r) <==> IsConsumedRow(w, r) || r in ConsumedOutside(s, w, ops) || r in end.charged)
            && (IsConsumedRow(w, r) || r in ConsumedOutside(s, w, ops) ==> (r in end.charged <==> r in w.charged))
            && (r in ConsumedOutside(s, w, ops) ==> !IsConsumedRow(w, r))
    decreases |ops|
  {
    if ops != [] {
      StepKeepsInv(s, w, ops[0]);
      StepConsumes(s, w, ops[0], r);
      ConsumedFrom(s, Apply(s, w, ops[0]), ops[1..], r);
    }
  }

  /** Over every run, whatever the rest of the system does: a consumed reservation of
      this process was consumed either by an outside step or for a validated answer
      of its own call, never both. */
  lemma ChargedMeansValidated(s: Settings, ops: seq<Op>, r: nat)
    requires r in After(s, EMPTY_WORLD, ops).ours
    ensures var w := After(s, EMPTY_WORLD, ops);
            && (IsConsumedRow(w, r) <==> r in w.charged || r in ConsumedOutside(s, EMPTY_WORLD, ops))
            && !(r in w.charged && r in ConsumedOutside(s, EMPTY_WORLD, ops))
            && (r in w.charged ==>
                  exists i :: 0 <= i < |w.calls| && w.calls[i].row == r && Charges(w.calls[i].phase)
                              && Validated(s, w.calls[i].request.feature, w.calls[i].context, w.calls[i].phase.output))
  {
    var w := After(s, EMPTY_WORLD, ops);
    InitiallySafe(s);
    EveryRunIsSafe(s, EMPTY_WORLD, ops);
    ConsumedFrom(s, EMPTY_WORLD, ops, r);
    if r in w.charged {
      assert ChargesRow(w.calls, r);
      var i :| 0 <= i < |w.calls| && w.calls[i].row == r && Charges(w.calls[i].phase);
      assert SoundCall(s, w.calls[i]);
    }
  }

  // ---------------------------------------------------------------- the failure

  const NO_BEGIN_FAULTS := BeginFaults(false, false, false, false)
  const NO_END_FAULTS := EndFaults(false, false, false)

  /** A call's own reservation is the newest for its resource when it starts to wait,
      so work on the resource that then settles "its" reservation consumes it. */
  lemma AwaitedReservationConsumed(s: Settings, w: World, r: Ask, now: int, f: BeginFaults)
    requires Begin(s, w, r, now, f).1.Suspended?
    ensures var row, next := |w.ledger.rows|, Apply(s, Begin(s, w, r, now, f).0, ConsumeFor(r.source.resourceId));
            && AwaitsRow(next.calls, row) && IsConsumedRow(next, row)
            && next.ledger.usage == w.ledger.usage + [Usage(r.user, AIRequest)]
  {
    var held, row := Begin(s, w, r, now, f).0, |w.ledger.rows|;
    assert held.ledger.rows == w.ledger.rows + [Reservation(r.user, AIRequest, r.source.resourceId, Open)];
    assert Latest(held.ledger.rows, r.source.resourceId) == Some(row);
    var next := Apply(s, held, ConsumeFor(r.source.resourceId));
    assert next.calls[|w.calls|].row == row && next.calls[|w.calls|].phase.Waiting?;
  }

  /** A run in which a call that times out is charged all the same. */
  lemma TimeoutChargedByOthers(s: Settings, r: Ask)
    requires s.enabled && !s.retain && s.build(r).Ok? && s.limits.global >= 1 && s.limits.perUser >= 1
    requires s.plan(r.user).aiEnabled && s.plan(r.user).aiLimit >= 1
    ensures var ops := [Start(r, 0, NO_BEGIN_FAULTS), ConsumeFor(r.source.resourceId),
              Resume(0, Threw(Aborted), 0, NO_END_FAULTS)];
            var w := After(s, EMPTY_WORLD, ops);
            && |w.calls| == 1 && w.calls[0].phase == Refused(Timeout) && w.calls[0].row == 0 && IsConsumedRow(w, 0)
            && w.ledger.usage == [Usage(r.user, AIRequest)]
  {
    var ops := [Start(r, 0, NO_BEGIN_FAULTS), ConsumeFor(r.source.resourceId),
      Resume(0, Threw(Aborted), 0, NO_END_FAULTS)];
    var held := Begin(s, EMPTY_WORLD, r, 0, NO_BEGIN_FAULTS).0;
    assert held.calls == [Call(r, s.build(r).value, 0, 0, Waiting)];
    AwaitedReservationConsumed(s, EMPTY_WORLD, r, 0, NO_BEGIN_FAULTS);
    var paid := Apply(s, held, ConsumeFor(r.source.resourceId));
    var last := Apply(s, paid, ops[2]);
    assert ops[1..][1..] == [ops[2]] && ops[1..][0] == ops[1];
    assert After(s, paid, [ops[2]]) == last by {
      assert [ops[2]][1..] == [];
    }
  }
}
