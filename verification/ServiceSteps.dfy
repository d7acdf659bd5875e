/** The two steps of a request, said outright: when a call is answered and with what,
    and how every other reply and every start ends. */
module ServiceSteps {
  import opened Seqs
  import opened JsText
  import opened Json
  import opened AIErrors
  import opened AIContext
  import opened AIOutput
  import opened Quota
  import opened Service
  import opened ServiceSafety
  import G = Gate

  // ---------------------------------------------------------------- the reply

  /** The provider returned a text, neither blank nor too long, that parses to an
      object validated to `output`. */
  ghost predicate GoodReply(s: Settings, call: Call, reply: Reply, output: Output) {
    exists raw: Json ::
      && reply.Returned? && reply.text.Some? && Trim(reply.text.value) != "" && |reply.text.value| <= s.maxResponse
      && s.parse(reply.text.value) == Ok(raw)
      && s.validate(call.request.feature, raw, call.context) == Ok(output)
  }

  /** The reply is good for some answer. */
  ghost predicate Acceptable(s: Settings, call: Call, reply: Reply) {
    exists output :: GoodReply(s, call, reply, output)
  }

  lemma AcceptableExactly(s: Settings, call: Call, reply: Reply)
    ensures Acceptable(s, call, reply) <==> JudgeReply(s, call.request.feature, call.context, reply).Ok?
  {
    var r := JudgeReply(s, call.request.feature, call.context, reply);
    if r.Ok? {
      GoodReplyJudged(s, call, reply, r.value);
    }
    if output :| GoodReply(s, call, reply, output) {
      GoodReplyJudged(s, call, reply, output);
    }
  }

  lemma GoodReplyJudged(s: Settings, call: Call, reply: Reply, output: Output)
    ensures JudgeReply(s, call.request.feature, call.context, reply) == Ok(output) <==>
              GoodReply(s, call, reply, output)
  {
    if JudgeReply(s, call.request.feature, call.context, reply) == Ok(output) {
      var raw := s.parse(reply.text.value).value;
      assert s.validate(call.request.feature, raw, call.context) == Ok(output);
    }
  }

  /** A waiting call is answered with `output` exactly when the reply is good for it and
      the charge can be written; the answer is lost exactly when results are kept and
      storing it throws. */
  lemma AnsweredExactly(s: Settings, w: World, i: nat, reply: Reply, expiresAt: int, f: EndFaults, output: Output)
    requires CanResume(w, i)
    ensures var phase := Finish(s, w, i, reply, expiresAt, f).calls[i].phase;
            var good := GoodReply(s, w.calls[i], reply, output) && !f.consumeThrows;
            && (phase == Answered(output) <==> good && !(s.retain && f.insertThrows))
            && (phase == Unsaved(output) <==> good && s.retain && f.insertThrows)
  {
    GoodReplyJudged(s, w.calls[i], reply, output);
  }

  /** What an answer does: its own open reservation is consumed and its user charged
      once, the slot is given up, and with retention the cache grows by this entry. */
  lemma AnswerEffects(s: Settings, w: World, i: nat, reply: Reply, expiresAt: int, f: EndFaults, output: Output)
    requires CanResume(w, i) && GoodReply(s, w.calls[i], reply, output) && !f.consumeThrows
    requires w.calls[i].row < |w.ledger.rows| && w.ledger.rows[w.calls[i].row].status == Open
    ensures var call, next := w.calls[i], Finish(s, w, i, reply, expiresAt, f);
            var r := call.request;
            var key := Key(r.user, r.feature, r.source.resourceKind, r.source.resourceId, r.target,
                           s.hash(call.context.(bytes := 0)));
            && next.ledger.rows == w.ledger.rows[call.row := w.ledger.rows[call.row].(status := Consumed)]
            && next.ledger.usage == w.ledger.usage + [Usage(w.ledger.rows[call.row].user, w.ledger.rows[call.row].kind)]
            && next.gate.slots[call.slot].released
            && next.cache == w.cache + (if s.retain && !f.insertThrows then [Stored(key, output, expiresAt)] else [])
  {
    GoodReplyJudged(s, w.calls[i], reply, output);
    ReleaseAfterCharge(w, w.calls[i].row, f.releaseThrows);
  }

  /** The code a call that is not answered ends with. */
  ghost predicate RefusedWith(code: Code, s: Settings, call: Call, reply: Reply, f: EndFaults) {
    if f.releaseThrows then code == Unavailable
    else if reply.Threw? then
      && (reply.failure.Aborted? ==> code == Timeout)
      && (reply.failure.Foreign? ==> code == Unavailable)
      && (reply.failure.Coded? ==> code == reply.failure.code)
    else if Acceptable(s, call, reply) then code == Unavailable
    else code == InvalidOutput
  }

  /** Every other reply refuses the call with its code, charges and stores nothing, and
      gives slot and open reservation back. */
  lemma RefusalEffects(s: Settings, w: World, i: nat, reply: Reply, expiresAt: int, f: EndFaults)
    requires CanResume(w, i) && w.calls[i].row < |w.ledger.rows| && w.ledger.rows[w.calls[i].row].status == Open
    requires f.consumeThrows || !Acceptable(s, w.calls[i], reply)
    ensures var call, next := w.calls[i], Finish(s, w, i, reply, expiresAt, f);
            && next.calls[i].phase.Refused? && RefusedWith(next.calls[i].phase.code, s, call, reply, f)
            && next.cache == w.cache && next.ledger.usage == w.ledger.usage
            && next.gate.slots[call.slot].released
            && (f.releaseThrows ==> next.ledger.rows == w.ledger.rows)
            && (!f.releaseThrows ==>
                  next.ledger.rows == w.ledger.rows[call.row := w.ledger.rows[call.row].(status := Released)])
  {
    var call := w.calls[i];
    var judged := JudgeReply(s, call.request.feature, call.context, reply);
    if judged.Ok? {
      GoodReplyJudged(s, call, reply, judged.value);
    }
    forall output: Output
      ensures judged == Ok(output) <==> GoodReply(s, call, reply, output)
    {
      GoodReplyJudged(s, call, reply, output);
    }
  }

  // ---------------------------------------------------------------- the start

  /** `entry` answers the request about context `c` at time `now`. */
  predicate Serves(s: Settings, entry: Stored, r: Ask, c: Context, now: int) {
    && entry.expiresAt > now
    && entry.key.user == r.user && entry.key.feature == r.feature && entry.key.target == r.target
    && entry.key.resourceKind == r.source.resourceKind && entry.key.resourceId == r.source.resourceId
    && entry.key.hash == s.hash(c.(bytes := 0))
  }

  /** A start is answered from the cache exactly when results are kept and a stored one
      serves it, and then with the newest such result. */
  lemma CachedExactly(s: Settings, w: World, r: Ask, now: int, f: BeginFaults, output: Output)
    ensures Begin(s, w, r, now, f).1 == Cached(output)
       <==> s.enabled && s.build(r).Ok? && s.retain && !f.lookupThrows
            && exists k :: 0 <= k < |w.cache| && Serves(s, w.cache[k], r, s.build(r).value, now)
                           && w.cache[k].output == output
                           && forall j :: k < j < |w.cache| ==> !Serves(s, w.cache[j], r, s.build(r).value, now)
  {
    if s.build(r).Ok? {
      var key := KeyOf(s, r, s.build(r).value);
      assert forall k :: 0 <= k < |w.cache| ==>
        (Serves(s, w.cache[k], r, s.build(r).value, now) <==> w.cache[k].key == key && w.cache[k].expiresAt > now);
    }
  }

  /** The request gets as far as the quota check. */
  ghost predicate ReachesQuota(s: Settings, w: World, r: Ask, now: int, f: BeginFaults) {
    && s.enabled && s.build(r).Ok?
    && (s.retain ==> !f.lookupThrows)
    && (s.retain ==> forall k :: 0 <= k < |w.cache| ==> !Serves(s, w.cache[k], r, s.build(r).value, now))
    && !f.reserveThrows
  }

  /** The plan has AI requests left, reserved ones counted as used. */
  predicate HasQuota(s: Settings, w: World, user: string) {
    && s.plan(user).aiEnabled
    && CountUsage(w.ledger.usage, user, AIRequest) + CountOpen(w.ledger.rows, user, AIRequest) < s.plan(user).aiLimit
  }

  lemma ServedByKey(s: Settings, w: World, r: Ask, now: int)
    requires s.build(r).Ok?
    ensures FindStored(w.cache, KeyOf(s, r, s.build(r).value), now).None?
       <==> forall k :: 0 <= k < |w.cache| ==> !Serves(s, w.cache[k], r, s.build(r).value, now)
  {
    var key := KeyOf(s, r, s.build(r).value);
    assert forall k :: 0 <= k < |w.cache| ==>
      (Serves(s, w.cache[k], r, s.build(r).value, now) <==> w.cache[k].key == key && w.cache[k].expiresAt > now);
  }

  lemma QuotaReached(s: Settings, w: World, r: Ask, now: int, f: BeginFaults)
    requires ReachesQuota(s, w, r, now, f)
    ensures Begin(s, w, r, now, f)
         == if HasQuota(s, w, r.user) then Enter(s, w, r, s.build(r).value, f) else (w, Failed(QuotaExceeded))
  {
    ServedByKey(s, w, r, now);
  }

  /** In a reachable state a start suspends in the provider call exactly when nothing
      failed, no stored result serves it, quota is left, and fewer calls wait than
      either limit allows. It then waits with a reservation and a slot of its own. */
  lemma SuspendedExactly(s: Settings, w: World, r: Ask, now: int, f: BeginFaults)
    requires Inv(s, w)
    ensures var (next, started) := Begin(s, w, r, now, f);
            && (started.Suspended? <==>
                  ReachesQuota(s, w, r, now, f) && HasQuota(s, w, r.user) && !f.promptThrows
                  && WaitingBy(w.calls, r.user) < s.limits.perUser && G.Held(w.gate.slots) < s.limits.global)
            && (started.Suspended? ==>
                  && started.index == |w.calls|
                  && next.calls == w.calls + [Call(r, s.build(r).value, |w.ledger.rows|, |w.gate.slots|, Waiting)]
                  && next.ledger.rows == w.ledger.rows + [Reservation(r.user, AIRequest, r.source.resourceId, Open)]
                  && next.gate.slots == w.gate.slots + [G.SlotState(r.user, false)]
                  && next.cache == w.cache)
  {
    assert G.Mine(w.gate.perUser, r.user) == WaitingBy(w.calls, r.user);
    if ReachesQuota(s, w, r, now, f) {
      QuotaReached(s, w, r, now, f);
    } else if s.enabled && s.build(r).Ok? {
      ServedByKey(s, w, r, now);
    }
  }

  /** The code a failed start ends with: that of the first obstacle in its way. */
  ghost predicate FailsWith(code: Code, s: Settings, w: World, r: Ask, now: int, f: BeginFaults) {
    if !s.enabled then code == NotConfigured
    else if s.build(r).Err? then
      match s.build(r).error
      case Coded(refusal) => code == refusal
      case MissingFocus => code == Unavailable
    else if !ReachesQuota(s, w, r, now, f) then code == Unavailable
    else if !HasQuota(s, w, r.user) then code == QuotaExceeded
    else if !f.releaseThrows && WaitingBy(w.calls, r.user) >= s.limits.perUser then code == RateLimited
    else code == Unavailable
  }

  lemma FailureCode(s: Settings, w: World, r: Ask, now: int, f: BeginFaults)
    requires Inv(s, w) && Begin(s, w, r, now, f).1.Failed?
    ensures FailsWith(Begin(s, w, r, now, f).1.code, s, w, r, now, f)
  {
    assert G.Mine(w.gate.perUser, r.user) == WaitingBy(w.calls, r.user);
    if ReachesQuota(s, w, r, now, f) {
      QuotaReached(s, w, r, now, f);
    } else if s.enabled && s.build(r).Ok? {
      ServedByKey(s, w, r, now);
    }
  }

  // ---------------------------------------------------------------- the rest of the system

  /** Other work reserves what it asks for, an AI request only where the plan has one left;
      a sweep gives an open reservation back, and forgetting drops one stored result.
      Nothing else changes. */
  lemma OutsideExactly(s: Settings, w: World, user: string, kind: Kind, resource: string, i: nat)
    ensures var next := Apply(s, w, ReserveElsewhere(user, kind, resource));
            && next == w.(ledger := next.ledger) && next.ledger.usage == w.ledger.usage
            && next.ledger.rows == (if kind != AIRequest || HasQuota(s, w, user)
                                    then w.ledger.rows + [Reservation(user, kind, resource, Open)] else w.ledger.rows)
    ensures var next := Apply(s, w, Sweep(i));
            && next == w.(ledger := next.ledger) && next.ledger.usage == w.ledger.usage
            && next.ledger.rows == (if i < |w.ledger.rows| && w.ledger.rows[i].status == Open
                                    then w.ledger.rows[i := w.ledger.rows[i].(status := Released)] else w.ledger.rows)
    ensures Apply(s, w, Forget(i)) == w.(cache := w.cache[..if i < |w.cache| then i else |w.cache|]
                                                  + if i < |w.cache| then w.cache[i + 1..] else [])
  {
  }
}
