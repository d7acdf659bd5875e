/** Deleting an account: subscriptions first, then rows, then blobs, against a
    payment provider that may fail at any call. */
module Deletion {
  import opened Seqs

  datatype Policy = Immediately | AtPeriodEnd

  /** A subscription as the provider knows it. */
  datatype Remote = Remote(status: string, cancelAtPeriodEnd: bool)

  /** A local row for an open subscription. */
  datatype Subscription = Subscription(id: string, provider: string, providerId: string)

  /** How the calls for one row fail, if they do: the lookup throws, the cancellation
      throws before or after taking effect, or the audit record throws. */
  datatype Fault = NoFault | LookupThrows | CancelRefused | CancelLost | AuditThrows

  datatype Rows = Rows(present: bool, open: seq<Subscription>, packageKeys: seq<string>, artifactKeys: seq<string>,
                       jobs: seq<string>)

  const NO_ROWS := Rows(false, [], [], [], [])

  datatype Report = Report(blobsDeleted: nat, blobsFailed: nat, subscriptionsCancelled: nat)

  datatype DeletionError = ProviderFailed | StoreFailed

  /** What the cancellation reads of the provider and the configuration. */
  datatype Billing = Billing(enabled: bool, name: string, endsLater: bool, policy: Policy)

  // ---------------------------------------------------------------- cancelling

  function Cancelled(remote: map<string, Remote>, id: string, atPeriodEnd: bool): map<string, Remote> {
    if id !in remote then remote
    else remote[id := if atPeriodEnd then remote[id].(cancelAtPeriodEnd := true) else remote[id].(status := "canceled")]
  }

  predicate Gone(remote: map<string, Remote>, id: string) {
    id !in remote || remote[id].status == "canceled"
  }

  /** The subscription will not be charged again. */
  predicate Ended(remote: map<string, Remote>, id: string) {
    Gone(remote, id) || remote[id].cancelAtPeriodEnd
  }

  /** Does the policy make a call for this subscription? */
  predicate Calls(b: Billing, r: Remote) {
    match b.policy
    case AtPeriodEnd => !r.cancelAtPeriodEnd && b.endsLater
    case Immediately => true
  }

  datatype Attempt = Attempt(remote: map<string, Remote>, ok: bool)

  /** One row of the loop. */
  function SettleOne(b: Billing, remote: map<string, Remote>, id: string, fault: Fault): Attempt {
    if fault.LookupThrows? then Attempt(remote, false)
    else if Gone(remote, id) then Attempt(remote, true)
    else if !Calls(b, remote[id]) then Attempt(remote, !fault.AuditThrows?)
    else if fault.CancelRefused? then Attempt(remote, false)
    else Attempt(Cancelled(remote, id, b.policy.AtPeriodEnd?), !fault.CancelLost? && !fault.AuditThrows?)
  }

  datatype Outcome = Outcome(remote: map<string, Remote>, count: Option<nat>)

  /** The loop from row `i` on, with `count` rows settled so far; it ends at the
      first failure. */
  function SettleFrom(b: Billing, remote: map<string, Remote>, rows: seq<Subscription>, faults: nat -> Fault, i: nat,
                      count: nat): Outcome
    requires i <= |rows|
    decreases |rows| - i
  {
    if i == |rows| then Outcome(remote, Some(count))
    else if rows[i].provider != b.name then SettleFrom(b, remote, rows, faults, i + 1, count)
    else
      var a := SettleOne(b, remote, rows[i].providerId, faults(i));
      if a.ok then SettleFrom(b, a.remote, rows, faults, i + 1, count + 1) else Outcome(a.remote, None)
  }

  function Settle(b: Billing, remote: map<string, Remote>, rows: seq<Subscription>, faults: nat -> Fault): Outcome {
    if !b.enabled then Outcome(remote, Some(0)) else SettleFrom(b, remote, rows, faults, 0, 0)
  }

  /** Nothing at the provider is created, removed or revived. */
  ghost predicate OnlyEnds(before: map<string, Remote>, after: map<string, Remote>) {
    && before.Keys == after.Keys
    && (forall id :: Gone(before, id) ==> Gone(after, id))
    && (forall id :: Ended(before, id) ==> Ended(after, id))
  }

  /** The provider can do what the policy asks. */
  predicate CanHonour(b: Billing) {
    b.policy.Immediately? || b.endsLater
  }

  lemma SettleOneEnds(b: Billing, remote: map<string, Remote>, id: string, fault: Fault)
    ensures OnlyEnds(remote, SettleOne(b, remote, id, fault).remote)
    ensures SettleOne(b, remote, id, fault).ok && CanHonour(b) ==> Ended(SettleOne(b, remote, id, fault).remote, id)
    ensures SettleOne(b, remote, id, fault).ok && b.policy.Immediately? ==>
              Gone(SettleOne(b, remote, id, fault).remote, id)
    ensures !CanHonour(b) ==> SettleOne(b, remote, id, fault).remote == remote
    ensures fault.NoFault? ==> SettleOne(b, remote, id, fault).ok
  {
  }

  function OwnRows(b: Billing, rows: seq<Subscription>): nat {
    if rows == [] then 0 else (if rows[0].provider == b.name then 1 else 0) + OwnRows(b, rows[1..])
  }

  /** What the loop does from row `i` on. */
  lemma {:induction false} SettleFromEnds(b: Billing, remote: map<string, Remote>, rows: seq<Subscription>,
                                          faults: nat -> Fault, i: nat, count: nat)
    requires i <= |rows|
    ensures var o := SettleFrom(b, remote, rows, faults, i, count);
            && OnlyEnds(remote, o.remote)
            && (!CanHonour(b) ==> o.remote == remote)
            && (o.count.Some? ==> o.count.value == count + OwnRows(b, rows[i..]))
            && (o.count.Some? && CanHonour(b) ==>
                  forall k :: i <= k < |rows| && rows[k].provider == b.name ==> Ended(o.remote, rows[k].providerId))
            && (o.count.Some? && b.policy.Immediately? ==>
                  forall k :: i <= k < |rows| && rows[k].provider == b.name ==> Gone(o.remote, rows[k].providerId))
    decreases |rows| - i
  {
    if i < |rows| {
      assert rows[i..][1..] == rows[i + 1..];
      if rows[i].provider != b.name {
        SettleFromEnds(b, remote, rows, faults, i + 1, count);
      } else {
        var a := SettleOne(b, remote, rows[i].providerId, faults(i));
        SettleOneEnds(b, remote, rows[i].providerId, faults(i));
        if a.ok {
          SettleFromEnds(b, a.remote, rows, faults, i + 1, count + 1);
        }
      }
    }
  }

  /** Every open subscription of this provider has ended. */
  ghost predicate AllEnded(b: Billing, remote: map<string, Remote>, rows: seq<Subscription>) {
    forall k :: 0 <= k < |rows| && rows[k].provider == b.name ==> Ended(remote, rows[k].providerId)
  }

  /** After the subscriptions are settled with billing on, every one of them has
      ended exactly when the provider can do what the policy asks, or there was
      nothing to ask. */
  lemma SettledMeansEnded(b: Billing, remote: map<string, Remote>, rows: seq<Subscription>, faults: nat -> Fault)
    requires b.enabled && Settle(b, remote, rows, faults).count.Some?
    ensures AllEnded(b, Settle(b, remote, rows, faults).remote, rows) <==> CanHonour(b) || AllEnded(b, remote, rows)
    ensures b.policy.Immediately? ==>
              forall k :: 0 <= k < |rows| && rows[k].provider == b.name ==>
                Gone(Settle(b, remote, rows, faults).remote, rows[k].providerId)
    ensures Settle(b, remote, rows, faults).count.value == OwnRows(b, rows)
  {
    SettleFromEnds(b, remote, rows, faults, 0, 0);
    assert rows[0..] == rows;
  }

  /** Without faults the loop finishes, from whatever an earlier attempt left. */
  lemma {:induction false} SettlesWithoutFaults(b: Billing, remote: map<string, Remote>, rows: seq<Subscription>,
                                                faults: nat -> Fault, i: nat, count: nat)
    requires i <= |rows| && forall k: nat :: k < |rows| ==> faults(k).NoFault?
    ensures SettleFrom(b, remote, rows, faults, i, count).count.Some?
    decreases |rows| - i
  {
    if i < |rows| {
      if rows[i].provider != b.name {
        SettlesWithoutFaults(b, remote, rows, faults, i + 1, count);
      } else {
        var a := SettleOne(b, remote, rows[i].providerId, faults(i));
        SettleOneEnds(b, remote, rows[i].providerId, faults(i));
        SettlesWithoutFaults(b, a.remote, rows, faults, i + 1, count + 1);
      }
    }
  }

  /** A provider that cannot end a subscription later is asked nothing under the
      period-end policy, and the running subscription still counts as cancelled. */
  lemma CountedButRunning()
    ensures var b := Billing(true, "p", false, AtPeriodEnd);
            var remote := map["sub" := Remote("active", false)];
            var o := Settle(b, remote, [Subscription("row", "p", "sub")], k => NoFault);
            o == Outcome(remote, Some(1)) && !Ended(o.remote, "sub")
  {
    var b, remote := Billing(true, "p", false, AtPeriodEnd), map["sub" := Remote("active", false)];
    var rows := [Subscription("row", "p", "sub")];
    assert SettleOne(b, remote, "sub", NoFault) == Attempt(remote, true);
    assert SettleFrom(b, remote, rows, k => NoFault, 1, 1) == Outcome(remote, Some(1));
  }

  // ---------------------------------------------------------------- blobs

  function CountKept(keys: seq<string>, fails: string -> bool): nat {
    if keys == [] then 0 else (if fails(keys[|keys| - 1]) then 1 else 0) + CountKept(keys[..|keys| - 1], fails)
  }

  function Removed(blobs: set<string>, keys: seq<string>, fails: string -> bool): set<string> {
    blobs - set k | k in keys && !fails(k)
  }

  // ---------------------------------------------------------------- the whole deletion

  /** Everything a deletion touches. */
  datatype World = World(remote: map<string, Remote>, rows: Rows, stopped: set<string>, blobs: set<string>)

  datatype Faults = Faults(provider: nat -> Fault, rowsThrow: bool, blobThrows: string -> bool)

  function StorageKeys(rows: Rows): seq<string> {
    rows.packageKeys + rows.artifactKeys
  }

  function Stopped(w: World): World {
    w.(stopped := w.stopped + set j | j in w.rows.jobs)
  }

  function Delete(b: Billing, w: World, f: Faults): (World, Result<Report, DeletionError>) {
    var o := Settle(b, w.remote, w.rows.open, f.provider);
    var settled := w.(remote := o.remote);
    if o.count.None? then (settled, Err(ProviderFailed))
    else if f.rowsThrow then (Stopped(settled), Err(StoreFailed))
    else
      var keys := StorageKeys(w.rows);
      var kept := CountKept(keys, f.blobThrows);
      (Stopped(settled).(rows := NO_ROWS, blobs := Removed(w.blobs, keys, f.blobThrows)),
       Ok(Report(if kept <= |keys| then |keys| - kept else 0, kept, o.count.value)))
  }

  lemma {:induction false} KeptWithin(keys: seq<string>, fails: string -> bool)
    ensures CountKept(keys, fails) <= |keys|
  {
    if keys != [] {
      KeptWithin(keys[..|keys| - 1], fails);
    }
  }

  /** The user's rows go only once every open subscription of the provider has ended,
      if billing is on and the provider can honour the policy. */
  lemma NoSubscriptionOutlivesItsAccount(b: Billing, w: World, f: Faults)
    requires w.rows.present && !Delete(b, w, f).0.rows.present
    ensures b.enabled ==>
              (AllEnded(b, Delete(b, w, f).0.remote, w.rows.open)
               <==> CanHonour(b) || AllEnded(b, w.remote, w.rows.open))
    ensures !b.enabled ==> Delete(b, w, f).0.remote == w.remote
  {
    if b.enabled {
      SettledMeansEnded(b, w.remote, w.rows.open, f.provider);
    }
  }

  /** Once the subscriptions are settled every active job is stopped, whether the rows then
      go or not, and no others are; before that none is. */
  lemma JobsStopExactly(b: Billing, w: World, f: Faults, job: string)
    ensures var (after, r) := Delete(b, w, f);
            job in after.stopped <==> job in w.stopped || (job in w.rows.jobs && r != Err(ProviderFailed))
    ensures Delete(b, w, f).1.Ok? ==> Delete(b, w, f).0.rows == Rows(false, [], [], [], [])
  {
  }

  /** A failed deletion leaves the account's rows and blobs untouched; whatever was
      ended stays ended. It fails in no other way than the provider or the row
      store failing. */
  lemma FailureKeepsTheAccount(b: Billing, w: World, f: Faults)
    requires Delete(b, w, f).1.Err?
    ensures var after := Delete(b, w, f).0;
            after.rows == w.rows && after.blobs == w.blobs && OnlyEnds(w.remote, after.remote)
    ensures Delete(b, w, f).1.error.ProviderFailed? ==> b.enabled && Delete(b, w, f).0.stopped == w.stopped
  {
    SettleFromEnds(b, w.remote, w.rows.open, f.provider, 0, 0);
  }

  /** After any failed attempt, a retry without faults completes. */
  lemma RetryCompletes(b: Billing, w: World, first: Faults, second: Faults)
    requires w.rows.present && Delete(b, w, first).1.Err?
    requires (forall k: nat :: k < |w.rows.open| ==> second.provider(k).NoFault?) && !second.rowsThrow
    ensures var (after, r) := Delete(b, Delete(b, w, first).0, second);
            r.Ok? && after.rows == NO_ROWS && OnlyEnds(w.remote, after.remote)
            && (b.enabled && CanHonour(b) ==> AllEnded(b, after.remote, w.rows.open))
  {
    var left := Delete(b, w, first).0;
    FailureKeepsTheAccount(b, w, first);
    SettlesWithoutFaults(b, left.remote, w.rows.open, second.provider, 0, 0);
    SettleFromEnds(b, left.remote, w.rows.open, second.provider, 0, 0);
  }

  /** Every collected key is either deleted or counted as failed. */
  lemma BlobsAreAccountedFor(b: Billing, w: World, f: Faults)
    requires Delete(b, w, f).1.Ok?
    ensures var (after, r) := Delete(b, w, f);
            && r.value.blobsDeleted + r.value.blobsFailed == |w.rows.packageKeys| + |w.rows.artifactKeys|
            && r.value.blobsFailed == CountKept(StorageKeys(w.rows), f.blobThrows)
            && (forall k :: k in after.blobs <==> k in w.blobs && (k in StorageKeys(w.rows) ==> f.blobThrows(k)))
  {
    KeptWithin(StorageKeys(w.rows), f.blobThrows);
  }

  // ---------------------------------------------------------------- the objects

  class PaymentProvider {
    const name: string
    const endsLater: bool
    var remote: map<string, Remote>

    constructor (name: string, endsLater: bool, remote: map<string, Remote>)
      ensures this.name == name && this.endsLater == endsLater && this.remote == remote
    {
      this.name, this.endsLater, this.remote := name, endsLater, remote;
    }

    method GetSubscription(id: string, fault: Fault) returns (r: Result<Option<Remote>, DeletionError>)
      ensures fault.LookupThrows? ==> r == Err(ProviderFailed)
      ensures !fault.LookupThrows? ==> r == Ok(if id in remote then Some(remote[id]) else None)
    {
      if fault.LookupThrows? {
        return Err(ProviderFailed);
      }
      r := Ok(if id in remote then Some(remote[id]) else None);
    }

    /** Cancelling can throw before it takes effect, or after. */
    method CancelSubscription(id: string, atPeriodEnd: bool, fault: Fault) returns (ok: bool)
      modifies this
      ensures remote == if fault.CancelRefused? then old(remote) else Cancelled(old(remote), id, atPeriodEnd)
      ensures ok <==> !fault.CancelRefused? && !fault.CancelLost?
    {
      if fault.CancelRefused? {
        return false;
      }
      remote := Cancelled(remote, id, atPeriodEnd);
      ok := !fault.CancelLost?;
    }
  }

  class Database {
    var rows: Rows
    var stopped: set<string>

    constructor (rows: Rows)
      ensures this.rows == rows && stopped == {}
    {
      this.rows, stopped := rows, {};
    }

    method CancelJob(id: string)
      modifies this`stopped
      ensures stopped == old(stopped) + {id}
    {
      stopped := stopped + {id};
    }

    /** One transaction: the storage keys of what it deletes, or no change. */
    method DeleteUser(throws: bool) returns (keys: Result<seq<string>, DeletionError>)
      modifies this`rows
      ensures throws ==> keys == Err(StoreFailed) && rows == old(rows)
      ensures !throws ==> keys == Ok(StorageKeys(old(rows))) && rows == NO_ROWS
    {
      if throws {
        return Err(StoreFailed);
      }
      keys := Ok(rows.packageKeys + rows.artifactKeys);
      rows := NO_ROWS;
    }
  }

  class Storage {
    var blobs: set<string>

    constructor (blobs: set<string>)
      ensures this.blobs == blobs
    {
      this.blobs := blobs;
    }

    method Remove(key: string, throws: bool) returns (ok: bool)
      modifies this
      ensures ok <==> !throws
      ensures blobs == if throws then old(blobs) else old(blobs) - {key}
    {
      if !throws {
        blobs := blobs - {key};
      }
      ok := !throws;
    }
  }

  class AccountDeletion {
    const enabled: bool
    const policy: Policy
    const provider: PaymentProvider
    const db: Database
    const storage: Storage

    constructor (enabled: bool, policy: Policy, provider: PaymentProvider, db: Database, storage: Storage)
      ensures this.enabled == enabled && this.policy == policy
      ensures this.provider == provider && this.db == db && this.storage == storage
    {
      this.enabled, this.policy, this.provider, this.db, this.storage := enabled, policy, provider, db, storage;
    }

    function Config(): Billing {
      Billing(enabled, provider.name, provider.endsLater, policy)
    }

    ghost function State(): World
      reads provider, db, storage
    {
      World(provider.remote, db.rows, db.stopped, storage.blobs)
    }

    /** One subscription: `true` when it counts as cancelled. */
    method CancelOne(id: string, fault: Fault) returns (ok: bool)
      modifies provider
      ensures Attempt(provider.remote, ok) == SettleOne(Config(), old(provider.remote), id, fault)
    {
      var found := provider.GetSubscription(id, fault);
      if found.Err? {
        return false;
      }
      if found.value.None? || found.value.value.status == "canceled" {
        return true;
      }
      if policy == AtPeriodEnd && !found.value.value.cancelAtPeriodEnd && provider.endsLater {
        var done := provider.CancelSubscription(id, true, fault);
        if !done {
          return false;
        }
      } else if policy == Immediately {
        var done := provider.CancelSubscription(id, false, fault);
        if !done {
          return false;
        }
      }
      ok := !fault.AuditThrows?;
    }

    method CancelSubscriptions(open: seq<Subscription>, faults: nat -> Fault) returns (r: Result<nat, DeletionError>)
      modifies provider
      ensures var o := Settle(Config(), old(provider.remote), open, faults);
              provider.remote == o.remote && r == if o.count.Some? then Ok(o.count.value) else Err(ProviderFailed)
    {
      if |open| == 0 {
        return Ok(0);
      }
      if !enabled {
        return Ok(0);
      }
      var cancelled := 0;
      for i := 0 to |open|
        invariant SettleFrom(Config(), provider.remote, open, faults, i, cancelled)
               == SettleFrom(Config(), old(provider.remote), open, faults, 0, 0)
      {
        if open[i].provider != provider.name {
          continue;
        }
        var ok := CancelOne(open[i].providerId, faults(i));
        if !ok {
          return Err(ProviderFailed);
        }
        cancelled := cancelled + 1;
      }
      r := Ok(cancelled);
    }

    method DeleteAccount(f: Faults) returns (r: Result<Report, DeletionError>)
      modifies provider, db, storage
      ensures (State(), r) == Delete(Config(), old(State()), f)
    {
      var subscriptions := CancelSubscriptions(db.rows.open, f.provider);
      if subscriptions.Err? {
        return Err(subscriptions.error);
      }
      ghost var remote := provider.remote;
      var jobs := db.rows.jobs;
      for i := 0 to |jobs|
        invariant db.stopped == old(db.stopped) + set j | j in jobs[..i]
        invariant db.rows == old(db.rows) && storage.blobs == old(storage.blobs) && provider.remote == remote
      {
        assert jobs[..i + 1] == jobs[..i] + [jobs[i]];
        db.CancelJob(jobs[i]);
      }
      assert jobs[..|jobs|] == jobs;
      var deleted := db.DeleteUser(f.rowsThrow);
      if deleted.Err? {
        return Err(deleted.error);
      }
      var keys := deleted.value;
      var blobsDeleted, blobsFailed := 0, 0;
      ghost var stopped := db.stopped;
      assert Removed(storage.blobs, keys[..0], f.blobThrows) == storage.blobs;
      for i := 0 to |keys|
        invariant storage.blobs == Removed(old(storage.blobs), keys[..i], f.blobThrows)
        invariant db.rows == NO_ROWS && db.stopped == stopped && provider.remote == remote
        invariant blobsFailed == CountKept(keys[..i], f.blobThrows) && blobsDeleted + blobsFailed == i
      {
        assert keys[..i + 1][..i] == keys[..i] && keys[..i + 1] == keys[..i] + [keys[i]];
        var ok := storage.Remove(keys[i], f.blobThrows(keys[i]));
        if ok {
          blobsDeleted := blobsDeleted + 1;
        } else {
          blobsFailed := blobsFailed + 1;
        }
      }
      assert keys[..|keys|] == keys;
      KeptWithin(keys, f.blobThrows);
      r := Ok(Report(blobsDeleted, blobsFailed, subscriptions.value));
    }
  }
}
