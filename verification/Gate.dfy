/** The concurrency gate in front of the AI provider: one global counter, one
    counter per user, and one-shot slots. */
module Gate {
  import opened Seqs
  import opened AIErrors

  datatype Limits = Limits(global: int, perUser: int)

  datatype SlotState = SlotState(user: string, released: bool)

  /** The counters, and every slot issued so far in order. */
  datatype GateState = GateState(inFlight: int, perUser: map<string, int>, slots: seq<SlotState>)

  const EMPTY_GATE := GateState(0, map[], [])

  function Mine(perUser: map<string, int>, user: string): int {
    if user in perUser then perUser[user] else 0
  }

  function Acquire(g: GateState, user: string, limits: Limits): Result<GateState, Code> {
    var mine := Mine(g.perUser, user);
    if mine >= limits.perUser then Err(RateLimited)
    else if g.inFlight >= limits.global then Err(Unavailable)
    else Ok(GateState(g.inFlight + 1, g.perUser[user := mine + 1], g.slots + [SlotState(user, false)]))
  }

  /** Releasing a slot, with the source's clamp at zero and its fallback count. */
  function Release(g: GateState, i: nat): GateState
    requires i < |g.slots|
  {
    var user := g.slots[i].user;
    if g.slots[i].released then g
    else
      var current := if user in g.perUser then g.perUser[user] else 1;
      GateState(
        if g.inFlight - 1 < 0 then 0 else g.inFlight - 1,
        if current <= 1 then g.perUser - {user} else g.perUser[user := current - 1],
        g.slots[i := SlotState(user, true)])
  }

  // ---------------------------------------------------------------- the invariant

  function Held(slots: seq<SlotState>): nat {
    if slots == [] then 0 else (if slots[0].released then 0 else 1) + Held(slots[1..])
  }

  function HeldBy(slots: seq<SlotState>, user: string): nat {
    if slots == [] then 0
    else (if !slots[0].released && slots[0].user == user then 1 else 0) + HeldBy(slots[1..], user)
  }

  ghost function Total(m: map<string, int>): int
    decreases |m|
  {
    if m == map[] then 0
    else
      var k :| k in m;
      m[k] + Total(m - {k})
  }

  /** The counters say exactly what is held: globally, per user, with no entry for
      a user who holds nothing. */
  ghost predicate Consistent(g: GateState) {
    && g.inFlight == Held(g.slots) == Total(g.perUser)
    && (forall user :: Mine(g.perUser, user) == HeldBy(g.slots, user))
    && (forall user :: user in g.perUser ==> g.perUser[user] > 0)
  }

  ghost predicate WithinLimits(g: GateState, limits: Limits) {
    && (g.inFlight <= limits.global || g.inFlight == 0)
    && (forall user :: user in g.perUser ==> g.perUser[user] <= limits.perUser)
  }

  lemma {:induction false} TotalRemove(m: map<string, int>, k: string)
    requires k in m
    ensures Total(m) == m[k] + Total(m - {k})
    decreases |m|
  {
    var p :| p in m && Total(m) == m[p] + Total(m - {p});
    if p != k {
      TotalRemove(m - {p}, k);
      TotalRemove(m - {k}, p);
      assert m - {p} - {k} == m - {k} - {p};
    }
  }

  lemma TotalSet(m: map<string, int>, k: string, v: int)
    ensures Total(m[k := v]) == Total(m - {k}) + v
    ensures Total(m) == Total(m - {k}) + Mine(m, k)
  {
    TotalRemove(m[k := v], k);
    assert m[k := v] - {k} == m - {k};
    if k in m {
      TotalRemove(m, k);
    } else {
      assert m - {k} == m;
    }
  }

  lemma {:induction false} HeldUpdate(slots: seq<SlotState>, i: nat, user: string)
    requires i < |slots| && !slots[i].released
    ensures var after := slots[i := SlotState(slots[i].user, true)];
            Held(slots) == Held(after) + 1
            && HeldBy(slots, user) == HeldBy(after, user) + (if slots[i].user == user then 1 else 0)
  {
    var after := slots[i := SlotState(slots[i].user, true)];
    if i == 0 {
      assert after[1..] == slots[1..];
    } else {
      HeldUpdate(slots[1..], i - 1, user);
      assert after[1..] == slots[1..][i - 1 := SlotState(slots[i].user, true)];
    }
  }

  lemma {:induction false} HeldPush(slots: seq<SlotState>, s: SlotState, user: string)
    ensures Held(slots + [s]) == Held(slots) + (if s.released then 0 else 1)
    ensures HeldBy(slots + [s], user) == HeldBy(slots, user) + (if !s.released && s.user == user then 1 else 0)
  {
    if slots == [] {
      assert slots + [s] == [s];
    } else {
      HeldPush(slots[1..], s, user);
      assert (slots + [s])[1..] == slots[1..] + [s];
    }
  }

  lemma AcquireKeepsConsistent(g: GateState, user: string, limits: Limits)
    requires Consistent(g) && Acquire(g, user, limits).Ok?
    ensures Consistent(Acquire(g, user, limits).value)
    ensures WithinLimits(g, limits) ==> WithinLimits(Acquire(g, user, limits).value, limits)
  {
    var next := Acquire(g, user, limits).value;
    TotalSet(g.perUser, user, Mine(g.perUser, user) + 1);
    forall other
      ensures Mine(next.perUser, other) == HeldBy(next.slots, other)
    {
      HeldPush(g.slots, SlotState(user, false), other);
    }
    HeldPush(g.slots, SlotState(user, false), user);
  }

  /** A release takes off exactly one: neither the clamp nor the fallback is used. */
  lemma ReleaseIsExact(g: GateState, i: nat)
    requires Consistent(g) && i < |g.slots| && !g.slots[i].released
    ensures Release(g, i).inFlight == g.inFlight - 1 >= 0
    ensures g.slots[i].user in g.perUser
  {
    HeldUpdate(g.slots, i, g.slots[i].user);
  }

  lemma ReleaseKeepsConsistent(g: GateState, i: nat)
    requires Consistent(g) && i < |g.slots|
    ensures Consistent(Release(g, i))
    ensures forall limits :: WithinLimits(g, limits) ==> WithinLimits(Release(g, i), limits)
    ensures Release(Release(g, i), i) == Release(g, i)
  {
    if !g.slots[i].released {
      var user := g.slots[i].user;
      var next := Release(g, i);
      ReleaseIsExact(g, i);
      TotalSet(g.perUser, user, g.perUser[user] - 1);
      forall other
        ensures Mine(next.perUser, other) == HeldBy(next.slots, other)
      {
        HeldUpdate(g.slots, i, other);
      }
      HeldUpdate(g.slots, i, user);
    }
  }

  datatype Op = AcquireFor(user: string) | ReleaseSlot(index: nat)

  /** One call on the gate; a failed acquire and an unknown slot change nothing. */
  function Apply(g: GateState, limits: Limits, op: Op): GateState {
    match op
    case AcquireFor(user) =>
      var r := Acquire(g, user, limits);
      if r.Ok? then r.value else g
    case ReleaseSlot(i) => if i < |g.slots| then Release(g, i) else g
  }

  function Run(g: GateState, limits: Limits, ops: seq<Op>): GateState
    decreases |ops|
  {
    if ops == [] then g else Run(Apply(g, limits, ops[0]), limits, ops[1..])
  }

  /** For every sequence of acquires and releases, repeated releases included, the
      counters are exact and both limits hold. */
  lemma {:induction false} EveryRunIsConsistent(g: GateState, limits: Limits, ops: seq<Op>)
    requires Consistent(g) && WithinLimits(g, limits)
    ensures Consistent(Run(g, limits, ops)) && WithinLimits(Run(g, limits, ops), limits)
    decreases |ops|
  {
    if ops != [] {
      match ops[0] {
        case AcquireFor(user) =>
          if Acquire(g, user, limits).Ok? {
            AcquireKeepsConsistent(g, user, limits);
          }
        case ReleaseSlot(i) =>
          if i < |g.slots| {
            ReleaseKeepsConsistent(g, i);
          }
      }
      EveryRunIsConsistent(Apply(g, limits, ops[0]), limits, ops[1..]);
    }
  }

  lemma {:induction false} HeldZero(slots: seq<SlotState>)
    ensures Held(slots) == 0 <==> forall i :: 0 <= i < |slots| ==> slots[i].released
  {
    if slots != [] {
      HeldZero(slots[1..]);
      assert forall i :: 0 <= i < |slots| - 1 ==> slots[1..][i] == slots[i + 1];
      assert forall i :: 1 <= i < |slots| ==> slots[i] == slots[1..][i - 1];
    }
  }

  lemma {:induction false} AllReleased(slots: seq<SlotState>, user: string)
    requires Held(slots) == 0
    ensures HeldBy(slots, user) == 0
  {
    if slots != [] {
      AllReleased(slots[1..], user);
    }
  }

  /** With nothing held the gate is back to its initial counters. */
  lemma EmptyWhenNothingHeld(g: GateState)
    requires Consistent(g)
    requires forall i :: 0 <= i < |g.slots| ==> g.slots[i].released
    ensures g.inFlight == 0 && g.perUser == map[]
  {
    HeldZero(g.slots);
    forall user
      ensures user !in g.perUser
    {
      AllReleased(g.slots, user);
      assert Mine(g.perUser, user) == 0;
    }
  }

  // ---------------------------------------------------------------- the objects

  class Slot {
    const user: string
    var released: bool

    constructor (user: string)
      ensures this.user == user && !released
    {
      this.user := user;
      released := false;
    }
  }

  class ConcurrencyGate {
    var globalInFlight: int
    var perUserInFlight: map<string, int>
    ghost var issued: seq<Slot>

    ghost function State(): GateState
      reads this, issued
    {
      GateState(globalInFlight, perUserInFlight,
                seq(|issued|, i requires 0 <= i < |issued| reads this, issued =>
                      SlotState(issued[i].user, issued[i].released)))
    }

    ghost predicate Valid()
      reads this, issued
    {
      && (forall i, j :: 0 <= i < j < |issued| ==> issued[i] != issued[j])
      && Consistent(State())
    }

    constructor ()
      ensures Valid() && State() == EMPTY_GATE && issued == []
    {
      globalInFlight, perUserInFlight, issued := 0, map[], [];
    }

    method AcquireSlot(userId: string, limits: Limits) returns (r: Result<Slot, Code>)
      requires Valid()
      modifies this
      ensures Valid()
      ensures Acquire(old(State()), userId, limits).Ok? ==>
                r.Ok? && fresh(r.value) && issued == old(issued) + [r.value]
                && State() == Acquire(old(State()), userId, limits).value
      ensures Acquire(old(State()), userId, limits).Err? ==>
                r == Err(Acquire(old(State()), userId, limits).error) && State() == old(State())
                  && issued == old(issued)
    {
      var mine := if userId in perUserInFlight then perUserInFlight[userId] else 0;
      if mine >= limits.perUser {
        return Err(RateLimited);
      }
      if globalInFlight >= limits.global {
        return Err(Unavailable);
      }
      AcquireKeepsConsistent(State(), userId, limits);
      globalInFlight := globalInFlight + 1;
      perUserInFlight := perUserInFlight[userId := mine + 1];
      var slot := new Slot(userId);
      issued := issued + [slot];
      assert State() == Acquire(old(State()), userId, limits).value;
      r := Ok(slot);
    }

    /** Releasing works once per slot; later calls change nothing. */
    method ReleaseSlot(slot: Slot, ghost index: nat)
      requires Valid() && index < |issued| && issued[index] == slot
      modifies this, slot
      ensures Valid() && issued == old(issued)
      ensures State() == Release(old(State()), index)
      ensures slot.released
    {
      ReleaseKeepsConsistent(State(), index);
      if slot.released {
        return;
      }
      ReleaseIsExact(State(), index);
      slot.released := true;
      globalInFlight := if globalInFlight - 1 < 0 then 0 else globalInFlight - 1;
      var current := if slot.user in perUserInFlight then perUserInFlight[slot.user] else 1;
      if current <= 1 {
        perUserInFlight := perUserInFlight - {slot.user};
      } else {
        perUserInFlight := perUserInFlight[slot.user := current - 1];
      }
      assert State().slots == Release(old(State()), index).slots;
    }
  }
}
