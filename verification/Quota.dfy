/** The quota store: reservations that are consumed or released at most once, and
    the usage they are turned into. */
module Quota {
  import opened Seqs

  datatype Kind = Analysis | TestRun | AIRequest | InteractiveBrowser

  datatype Status = Open | Consumed | Released

  datatype Reservation = Reservation(user: string, kind: Kind, resource: string, status: Status)

  datatype Usage = Usage(user: string, kind: Kind)

  /** Reservations in the order they were made, and usage events of the period. */
  datatype Ledger = Ledger(rows: seq<Reservation>, usage: seq<Usage>)

  datatype Plan = Plan(aiEnabled: bool, aiLimit: int)

  const EMPTY_LEDGER := Ledger([], [])

  predicate IsOpen(r: Reservation, user: string, kind: Kind) {
    r.user == user && r.kind == kind && r.status == Open
  }

  predicate IsConsumed(r: Reservation, user: string, kind: Kind) {
    r.user == user && r.kind == kind && r.status == Consumed
  }

  function CountOpen(rows: seq<Reservation>, user: string, kind: Kind): nat {
    if rows == [] then 0 else (if IsOpen(rows[0], user, kind) then 1 else 0) + CountOpen(rows[1..], user, kind)
  }

  function CountConsumed(rows: seq<Reservation>, user: string, kind: Kind): nat {
    if rows == [] then 0 else (if IsConsumed(rows[0], user, kind) then 1 else 0) + CountConsumed(rows[1..], user, kind)
  }

  function CountUsage(usage: seq<Usage>, user: string, kind: Kind): nat {
    if usage == [] then 0 else (if usage[0] == Usage(user, kind) then 1 else 0) + CountUsage(usage[1..], user, kind)
  }

  /** Used and reserved together. */
  function Committed(l: Ledger, user: string, kind: Kind): nat {
    CountUsage(l.usage, user, kind) + CountOpen(l.rows, user, kind)
  }

  predicate CanUseAI(plan: Plan, l: Ledger, user: string) {
    plan.aiEnabled && plan.aiLimit > 0 && plan.aiLimit - Committed(l, user, AIRequest) > 0
  }

  function Reserve(l: Ledger, user: string, kind: Kind, resource: string): Ledger {
    l.(rows := l.rows + [Reservation(user, kind, resource, Open)])
  }

  predicate Settleable(l: Ledger, i: nat) {
    i < |l.rows| && l.rows[i].status == Open
  }

  function Consume(l: Ledger, i: nat): Ledger {
    if Settleable(l, i) then
      Ledger(l.rows[i := l.rows[i].(status := Consumed)], l.usage + [Usage(l.rows[i].user, l.rows[i].kind)])
    else l
  }

  function Release(l: Ledger, i: nat): Ledger {
    if Settleable(l, i) then l.(rows := l.rows[i := l.rows[i].(status := Released)]) else l
  }

  /** The newest reservation made for a resource, whatever its kind. */
  function Latest(rows: seq<Reservation>, resource: string): (i: Option<nat>)
    ensures i.Some? ==> i.value < |rows| && rows[i.value].resource == resource
    ensures i.Some? ==> forall j :: i.value < j < |rows| ==> rows[j].resource != resource
    ensures i.None? ==> forall j :: 0 <= j < |rows| ==> rows[j].resource != resource
    decreases |rows|
  {
    if rows == [] then None
    else if rows[|rows| - 1].resource == resource then Some(|rows| - 1)
    else Latest(rows[..|rows| - 1], resource)
  }

  function ConsumeForResource(l: Ledger, resource: string): Ledger {
    var i := Latest(l.rows, resource);
    if i.Some? then Consume(l, i.value) else l
  }

  function ReleaseForResource(l: Ledger, resource: string): Ledger {
    var i := Latest(l.rows, resource);
    if i.Some? then Release(l, i.value) else l
  }

  // ---------------------------------------------------------------- accounting

  /** Every usage event stems from one consumed reservation. */
  ghost predicate Balanced(l: Ledger) {
    forall user, kind :: CountUsage(l.usage, user, kind) == CountConsumed(l.rows, user, kind)
  }

  lemma {:induction false} CountPush(rows: seq<Reservation>, r: Reservation, user: string, kind: Kind)
    ensures CountOpen(rows + [r], user, kind) == CountOpen(rows, user, kind) + (if IsOpen(r, user, kind) then 1 else 0)
    ensures CountConsumed(rows + [r], user, kind)
              == CountConsumed(rows, user, kind) + (if IsConsumed(r, user, kind) then 1 else 0)
  {
    if rows == [] {
      assert rows + [r] == [r];
    } else {
      CountPush(rows[1..], r, user, kind);
      assert (rows + [r])[1..] == rows[1..] + [r];
    }
  }

  lemma {:induction false} CountReplace(rows: seq<Reservation>, i: nat, r: Reservation, user: string, kind: Kind)
    requires i < |rows|
    ensures CountOpen(rows[i := r], user, kind) + (if IsOpen(rows[i], user, kind) then 1 else 0)
         == CountOpen(rows, user, kind) + (if IsOpen(r, user, kind) then 1 else 0)
    ensures CountConsumed(rows[i := r], user, kind) + (if IsConsumed(rows[i], user, kind) then 1 else 0)
         == CountConsumed(rows, user, kind) + (if IsConsumed(r, user, kind) then 1 else 0)
  {
    if i == 0 {
      assert rows[i := r][1..] == rows[1..];
    } else {
      CountReplace(rows[1..], i - 1, r, user, kind);
      assert rows[i := r][1..] == rows[1..][i - 1 := r];
    }
  }

  lemma {:induction false} UsagePush(usage: seq<Usage>, u: Usage, user: string, kind: Kind)
    ensures CountUsage(usage + [u], user, kind)
              == CountUsage(usage, user, kind) + (if u == Usage(user, kind) then 1 else 0)
  {
    if usage == [] {
      assert usage + [u] == [u];
    } else {
      UsagePush(usage[1..], u, user, kind);
      assert (usage + [u])[1..] == usage[1..] + [u];
    }
  }

  /** A reservation adds one to what its user has committed, and nothing else. */
  lemma ReserveCommits(l: Ledger, owner: string, kind: Kind, resource: string)
    ensures Balanced(l) ==> Balanced(Reserve(l, owner, kind, resource))
    ensures forall user, k ::
              Committed(Reserve(l, owner, kind, resource), user, k)
                == Committed(l, user, k) + (if user == owner && k == kind then 1 else 0)
  {
    var r := Reservation(owner, kind, resource, Open);
    forall user, k
      ensures CountConsumed(Reserve(l, owner, kind, resource).rows, user, k) == CountConsumed(l.rows, user, k)
      ensures CountOpen(Reserve(l, owner, kind, resource).rows, user, k)
                == CountOpen(l.rows, user, k) + (if user == owner && k == kind then 1 else 0)
    {
      CountPush(l.rows, r, user, k);
    }
  }

  /** Consuming turns reserved into used: what is committed stays the same. */
  lemma ConsumeCommits(l: Ledger, i: nat)
    ensures Balanced(l) ==> Balanced(Consume(l, i))
    ensures forall user, kind :: Committed(Consume(l, i), user, kind) == Committed(l, user, kind)
    ensures Consume(Consume(l, i), i) == Consume(l, i) && Release(Consume(l, i), i) == Consume(l, i)
  {
    if Settleable(l, i) {
      var r := l.rows[i];
      forall user, kind
        ensures CountConsumed(Consume(l, i).rows, user, kind)
                  == CountConsumed(l.rows, user, kind) + (if r.user == user && r.kind == kind then 1 else 0)
        ensures CountOpen(Consume(l, i).rows, user, kind) + (if r.user == user && r.kind == kind then 1 else 0)
                  == CountOpen(l.rows, user, kind)
        ensures CountUsage(Consume(l, i).usage, user, kind)
                  == CountUsage(l.usage, user, kind) + (if r.user == user && r.kind == kind then 1 else 0)
      {
        CountReplace(l.rows, i, r.(status := Consumed), user, kind);
        UsagePush(l.usage, Usage(r.user, r.kind), user, kind);
      }
    }
  }

  function Returned(l: Ledger, i: nat, user: string, kind: Kind): nat {
    if i < |l.rows| && IsOpen(l.rows[i], user, kind) then 1 else 0
  }

  /** Releasing gives the unit back to its user, and nothing else. */
  lemma ReleaseCommits(l: Ledger, i: nat)
    ensures Balanced(l) ==> Balanced(Release(l, i))
    ensures forall user, kind ::
              Committed(Release(l, i), user, kind) == Committed(l, user, kind) - Returned(l, i, user, kind)
    ensures Consume(Release(l, i), i) == Release(l, i) && Release(Release(l, i), i) == Release(l, i)
  {
    if Settleable(l, i) {
      var r := l.rows[i];
      forall user, kind
        ensures CountConsumed(Release(l, i).rows, user, kind) == CountConsumed(l.rows, user, kind)
        ensures CountOpen(Release(l, i).rows, user, kind) + (if r.user == user && r.kind == kind then 1 else 0)
                  == CountOpen(l.rows, user, kind)
      {
        CountReplace(l.rows, i, r.(status := Released), user, kind);
      }
    }
  }

  /** Nobody has committed more AI requests than the plan allows. */
  ghost predicate WithinPlans(l: Ledger, plan: string -> Plan) {
    forall user :: Committed(l, user, AIRequest) > 0 ==> Committed(l, user, AIRequest) <= plan(user).aiLimit
  }

  /** A reservation made under the plan check never takes its user over the limit. */
  lemma ReserveWithinPlans(l: Ledger, plan: string -> Plan, owner: string, kind: Kind, resource: string)
    requires WithinPlans(l, plan)
    requires kind.AIRequest? ==> CanUseAI(plan(owner), l, owner)
    ensures WithinPlans(Reserve(l, owner, kind, resource), plan)
  {
    ReserveCommits(l, owner, kind, resource);
  }

  lemma SettlingWithinPlans(l: Ledger, plan: string -> Plan, i: nat)
    requires WithinPlans(l, plan)
    ensures WithinPlans(Consume(l, i), plan) && WithinPlans(Release(l, i), plan)
  {
    ConsumeCommits(l, i);
    ReleaseCommits(l, i);
  }

  /** Settling for a resource settles the reservation `i` made for it exactly when no
      newer reservation, of whatever kind, was made for that resource. */
  lemma SettlesOwnExactly(l: Ledger, i: nat)
    requires Settleable(l, i)
    ensures var newest := forall j :: i < j < |l.rows| ==> l.rows[j].resource != l.rows[i].resource;
            && (ConsumeForResource(l, l.rows[i].resource) == Consume(l, i) <==> newest)
            && (ReleaseForResource(l, l.rows[i].resource) == Release(l, i) <==> newest)
  {
    var k := Latest(l.rows, l.rows[i].resource).value;
    assert k >= i;
    if k > i {
      assert Consume(l, i).rows[i].status == Consumed && Consume(l, k).rows[i].status == Open;
      assert Release(l, i).rows[i].status == Released && Release(l, k).rows[i].status == Open;
    }
  }

  /** So a browser session that starts while an answer about it is awaited consumes the
      answer's reservation and leaves its own open. */
  lemma WrongReservationConsumed(l: Ledger, session: nat, answer: nat)
    requires Settleable(l, session) && Settleable(l, answer) && session < answer
    requires l.rows[session].kind == InteractiveBrowser && l.rows[answer].kind == AIRequest
    requires l.rows[session].resource == l.rows[answer].resource
    requires forall j :: answer < j < |l.rows| ==> l.rows[j].resource != l.rows[answer].resource
    ensures var after := ConsumeForResource(l, l.rows[session].resource);
            && after.rows[answer].status == Consumed && after.rows[session].status == Open
            && after.usage == l.usage + [Usage(l.rows[answer].user, AIRequest)]
  {
    SettlesOwnExactly(l, answer);
  }
}
