/** The AI service as the process runs it: it updates the stores and the gate in
    place, in two steps around the provider call. */
module AIService {
  import opened AIErrors
  import opened AIContext
  import opened Quota
  import opened Service
  import opened ServiceSteps
  import opened Gate

  /** What a call keeps while it is suspended. */
  datatype Pending = Pending(request: Ask, context: Context, row: nat, slot: Slot)

  class Process {
    const settings: Settings
    const gate: ConcurrencyGate
    var ledger: Ledger
    var cache: seq<Stored>
    var pending: seq<Pending>
    ghost var calls: seq<Call>
    ghost var ours: set<nat>
    ghost var stuck: set<nat>
    ghost var charged: set<nat>

    ghost function State(): World
      reads this, gate, gate.issued
    {
      World(gate.State(), ledger, cache, calls, ours, stuck, charged)
    }

    ghost predicate Valid()
      reads this, gate, gate.issued
    {
      && gate.Valid() && |pending| == |calls|
      && (forall i :: 0 <= i < |calls| ==> calls[i].slot < |gate.issued|)
      && (forall i :: 0 <= i < |calls| ==>
            pending[i] == Pending(calls[i].request, calls[i].context, calls[i].row, gate.issued[calls[i].slot]))
    }

    constructor (settings: Settings)
      ensures Valid() && State() == EMPTY_WORLD && this.settings == settings && fresh(gate)
    {
      this.settings := settings;
      gate := new ConcurrencyGate();
      ledger, cache, pending := EMPTY_LEDGER, [], [];
      calls, ours, stuck, charged := [], {}, {}, {};
      new;
      assert State() == EMPTY_WORLD;
    }

    /** `releaseReservation` inside a `catch`; the write itself may throw. */
    method GiveBack(row: nat, releaseThrows: bool)
      modifies this`ledger, this`stuck
      ensures State() == Undo(old(State()), row, releaseThrows)
    {
      if releaseThrows {
        stuck := stuck + {row};
      } else {
        ledger := Quota.Release(ledger, row);
      }
    }

    method Start(r: Ask, now: int, f: BeginFaults) returns (started: Started)
      requires Valid()
      modifies this, gate
      ensures Valid()
      ensures (State(), started) == Begin(settings, old(State()), r, now, f)
    {
      if !settings.enabled {
        return Failed(NotConfigured);
      }
      var built := settings.build(r);
      if built.Err? {
        return Failed(CodeOf(built.error));
      }
      if settings.retain {
        if f.lookupThrows {
          return Failed(Unavailable);
        }
        var found := FindStored(cache, KeyOf(settings, r, built.value), now);
        if found.Some? {
          return Cached(found.value);
        }
      }
      if f.reserveThrows {
        return Failed(Unavailable);
      }
      if !CanUseAI(settings.plan(r.user), ledger, r.user) {
        return Failed(QuotaExceeded);
      }
      started := Enter(r, built.value, f);
    }

    /** The inner `try` up to the provider call. */
    method Enter(r: Ask, c: Context, f: BeginFaults) returns (started: Started)
      requires Valid()
      modifies this, gate
      ensures Valid()
      ensures (State(), started) == Service.Enter(settings, old(State()), r, c, f)
    {
      var row := |ledger.rows|;
      ledger := Reserve(ledger, r.user, AIRequest, r.source.resourceId);
      ours := ours + {row};
      started := Hold(r, c, row, f);
    }

    /** With the reservation made: a slot, then the call. */
    method Hold(r: Ask, c: Context, row: nat, f: BeginFaults) returns (started: Started)
      requires Valid()
      modifies this, gate
      ensures Valid()
      ensures (State(), started) == Service.Hold(settings, old(State()), r, c, row, f)
    {
      var slot := gate.AcquireSlot(r.user, settings.limits);
      if slot.Err? {
        GiveBack(row, f.releaseThrows);
        return Failed(Refusal(slot.error, f.releaseThrows));
      }
      started := Launch(r, c, row, slot.value, |gate.issued| - 1, f);
    }

    /** Building the prompt, and suspending in the provider call. */
    method Launch(r: Ask, c: Context, row: nat, slot: Slot, ghost index: nat, f: BeginFaults) returns (started: Started)
      requires Valid() && index < |gate.issued| && gate.issued[index] == slot
      modifies this, gate, slot
      ensures Valid() && gate.issued == old(gate.issued)
      ensures f.promptThrows ==>
                State() == Undo(old(State()), row, f.releaseThrows).(gate := Gate.Release(old(gate.State()), index))
                && started == Failed(Unavailable)
      ensures !f.promptThrows ==>
                State() == old(State()).(calls := old(calls) + [Call(r, c, row, index, Waiting)])
                && started == Suspended(|old(calls)|)
    {
      if f.promptThrows {
        GiveBack(row, f.releaseThrows);
        gate.ReleaseSlot(slot, index);
        return Failed(Unavailable);
      }
      calls := calls + [Call(r, c, row, index, Waiting)];
      pending := pending + [Pending(r, c, row, slot)];
      started := Suspended(|pending| - 1);
    }

    /** From the provider's reply on; `finally` releases the slot on every path. */
    method Resume(i: nat, reply: Reply, expiresAt: int, f: EndFaults) returns (phase: Phase)
      requires Valid() && CanResume(State(), i)
      modifies this, gate, pending[i].slot
      ensures Valid()
      ensures State() == Finish(settings, old(State()), i, reply, expiresAt, f)
      ensures phase == calls[i].phase
    {
      phase := Conclude(i, reply, expiresAt, f);
      gate.ReleaseSlot(pending[i].slot, calls[i].slot);
      calls := calls[i := calls[i].(phase := phase)];
    }

    method Conclude(i: nat, reply: Reply, expiresAt: int, f: EndFaults) returns (phase: Phase)
      requires Valid() && i < |calls|
      modifies this`ledger, this`cache, this`stuck, this`charged
      ensures (State(), phase) == Service.Conclude(settings, old(State()), calls[i], reply, expiresAt, f)
      ensures phase.Answered? || phase.Unsaved? <==> Acceptable(settings, calls[i], reply) && !f.consumeThrows
    {
      var p := pending[i];
      AcceptableExactly(settings, calls[i], reply);
      var judged := JudgeReply(settings, p.request.feature, p.context, reply);
      if judged.Err? {
        GiveBack(p.row, f.releaseThrows);
        return Refused(Refusal(judged.error, f.releaseThrows));
      }
      if f.consumeThrows {
        GiveBack(p.row, f.releaseThrows);
        return Refused(Unavailable);
      }
      charged := if Settleable(ledger, p.row) then charged + {p.row} else charged;
      ledger := Consume(ledger, p.row);
      if settings.retain {
        if f.insertThrows {
          GiveBack(p.row, f.releaseThrows);
          return Unsaved(judged.value);
        }
        cache := cache + [Stored(KeyOf(settings, p.request, p.context), judged.value, expiresAt)];
      }
      phase := Answered(judged.value);
    }
  }
}
