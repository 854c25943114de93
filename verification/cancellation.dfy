/**
 * Cancelling and resuming the caller's ACTIVE subscription
 * (aspy_backend/app/api/v1/payments.py, lines 544-649, the same code as
 * CANCELLATION_ENDPOINTS.py). Cancelling only schedules the end: it sets
 * `cancel_at_period_end` and `cancelled_at`, after asking the gateway to
 * stop at the end of the cycle when the subscription is linked to it and
 * the gateway is live. Resuming clears both columns and never calls the
 * gateway.
 */
module Cancellation {
  import opened Common
  import opened Models
  import opened Store
  import opened Gateway
  import opened Payments

  datatype CancelReply =
    | AlreadyScheduled(periodEnd: Option<Time>)
      /** Not linked to the gateway: "No further charges will be made." */
    | CancelledLocally(periodEnd: Option<Time>)
      /** Ends with the billing period; `access_until` repeats `period_end`. */
    | CancelledAtCycleEnd(periodEnd: Option<Time>)

  datatype ResumeReply = NotCancelled | Resumed

  /** The subscription at row `k` with its cancellation columns set. */
  function WithCancellation(t: Tables, k: nat, flag: bool, at: Option<Time>): (r: Tables)
    requires k < |t.subscriptions|
    ensures |r.subscriptions| == |t.subscriptions|
    ensures Consistent(t) ==> Consistent(r)
  {
    t.(subscriptions := t.subscriptions[k := t.subscriptions[k].(cancelAtPeriodEnd := flag, cancelledAt := at)])
  }

  function CancelSpec(t: Tables, userId: int, gw: Config, now: Time, cancelled: Call<()>): (o: Outcome<CancelReply>)
    ensures o.reply.Fail? ==> o.tables == t
    ensures Consistent(t) ==> Consistent(o.tables)
  {
    match ActiveSubscriptionIndex(t, userId)
    case None => Outcome(Fail(404, NoActiveSubscription), t, [])
    case Some(k) =>
      var sub := t.subscriptions[k];
      if sub.cancelAtPeriodEnd then Outcome(Ok(AlreadyScheduled(sub.periodEnd)), t, [])
      else
        var t' := WithCancellation(t, k, true, Some(now));
        if !Truthy(sub.razorpaySubscriptionId) then
          if Consistent(t') then Outcome(Ok(CancelledLocally(sub.periodEnd)), t', [])
          else Outcome(Fail(500, CommitFailed), t, [])
        else
          var calls := if IsMock(gw) then [] else [CancelSubscription(sub.razorpaySubscriptionId.value, 1)];
          if !IsMock(gw) && cancelled.Raised? then Outcome(Fail(500, GatewayFailed(cancelled.message)), t, calls)
          else if Consistent(t') then Outcome(Ok(CancelledAtCycleEnd(sub.periodEnd)), t', calls)
          else Outcome(Fail(500, CommitFailed), t, calls)
  }

  /** The endpoint on the request's session. Without a gateway reference the
      commit sits outside the handler, so its failure is an unhandled 500
      and closing the session discards the change. */
  method CancelSubscriptionEndpoint(s: Session, userId: int, gw: Config, now: Time, cancelled: Call<()>)
    returns (reply: Reply<CancelReply, Cause>, calls: seq<Request>)
    requires s.Idle()
    modifies s
    ensures var o := CancelSpec(old(s.db), userId, gw, now, cancelled);
      reply == o.reply && calls == o.calls && s.db == o.tables && s.committed == o.tables
  {
    calls := [];
    var found := ActiveSubscriptionIndex(s.db, userId);
    if found.None? {
      return Fail(404, NoActiveSubscription), calls;
    }
    var k := found.value;
    var sub := s.db.subscriptions[k];
    if sub.cancelAtPeriodEnd {
      return Ok(AlreadyScheduled(sub.periodEnd)), calls;
    }
    if !Truthy(sub.razorpaySubscriptionId) {
      s.db := WithCancellation(s.db, k, true, Some(now));
      var ok := s.Commit();
      if !ok {
        s.Rollback();
        return Fail(500, CommitFailed), calls;
      }
      return Ok(CancelledLocally(sub.periodEnd)), calls;
    }
    if !IsMock(gw) {
      calls := [CancelSubscription(sub.razorpaySubscriptionId.value, 1)];
      if cancelled.Raised? {
        s.Rollback();
        return Fail(500, GatewayFailed(cancelled.message)), calls;
      }
    }
    s.db := WithCancellation(s.db, k, true, Some(now));
    var ok := s.Commit();
    if !ok {
      s.Rollback();
      return Fail(500, CommitFailed), calls;
    }
    reply := Ok(CancelledAtCycleEnd(sub.periodEnd));
  }

  function ResumeSpec(t: Tables, userId: int): (o: Outcome<ResumeReply>)
    ensures o.calls == []
    ensures o.reply.Fail? ==> o.tables == t
    ensures Consistent(t) ==> Consistent(o.tables)
  {
    match ActiveSubscriptionIndex(t, userId)
    case None => Outcome(Fail(404, NoActiveSubscription), t, [])
    case Some(k) =>
      if !t.subscriptions[k].cancelAtPeriodEnd then Outcome(Ok(NotCancelled), t, [])
      else
        var t' := WithCancellation(t, k, false, None);
        if Consistent(t') then Outcome(Ok(Resumed), t', [])
        else Outcome(Fail(500, CommitFailed), t, [])
  }

  /** The endpoint on the request's session: no gateway request is made on
      either mode. */
  method ResumeSubscription(s: Session, userId: int) returns (reply: Reply<ResumeReply, Cause>)
    requires s.Idle()
    modifies s
    ensures var o := ResumeSpec(old(s.db), userId);
      reply == o.reply && s.db == o.tables && s.committed == o.tables
  {
    var found := ActiveSubscriptionIndex(s.db, userId);
    if found.None? {
      return Fail(404, NoActiveSubscription);
    }
    var k := found.value;
    if !s.db.subscriptions[k].cancelAtPeriodEnd {
      return Ok(NotCancelled);
    }
    s.db := WithCancellation(s.db, k, false, None);
    var ok := s.Commit();
    if !ok {
      s.Rollback();
      return Fail(500, CommitFailed);
    }
    reply := Ok(Resumed);
  }

  // ---- properties ----

  /** Changing the cancellation columns does not change which subscription
      is "the ACTIVE one". */
  lemma SameActiveSubscription(t: Tables, k: nat, flag: bool, at: Option<Time>, userId: int)
    requires k < |t.subscriptions|
    ensures ActiveSubscriptionIndex(WithCancellation(t, k, flag, at), userId) == ActiveSubscriptionIndex(t, userId)
  {
    var t' := WithCancellation(t, k, flag, at);
    assert forall j :: 0 <= j < |t.subscriptions| ==>
      IsActiveOf(t'.subscriptions[j], userId) == IsActiveOf(t.subscriptions[j], userId);
    SameActiveRows(t, t', userId);
  }

  lemma SameActiveRows(t: Tables, t': Tables, userId: int)
    requires |t'.subscriptions| == |t.subscriptions|
    requires forall j :: 0 <= j < |t.subscriptions| ==>
      IsActiveOf(t'.subscriptions[j], userId) == IsActiveOf(t.subscriptions[j], userId)
    ensures ActiveSubscriptionIndex(t', userId) == ActiveSubscriptionIndex(t, userId)
  {
    var a := ActiveSubscriptionIndex(t', userId);
    var b := ActiveSubscriptionIndex(t, userId);
    if b.Some? {
      assert IsActiveOf(t'.subscriptions[b.value], userId);
      assert a.Some? && !(a.value < b.value) && !(b.value < a.value);
    }
  }

  /** Without an ACTIVE subscription cancel is 404; a subscription already
      scheduled to end is answered with its period end and nothing is
      written, so `cancelled_at` keeps its first value; without a gateway
      reference no gateway request is made; a live gateway failure leaves
      the flag unset. */
  lemma CancelCases(t: Tables, userId: int, gw: Config, now: Time, cancelled: Call<()>)
    ensures var o := CancelSpec(t, userId, gw, now, cancelled);
      && (ActiveSubscriptionIndex(t, userId).None? ==> o == Outcome(Fail(404, NoActiveSubscription), t, []))
      && (ActiveSubscriptionIndex(t, userId).Some? ==>
            var sub := t.subscriptions[ActiveSubscriptionIndex(t, userId).value];
            && (sub.cancelAtPeriodEnd ==> o == Outcome(Ok(AlreadyScheduled(sub.periodEnd)), t, []))
            && (!Truthy(sub.razorpaySubscriptionId) ==> o.calls == [])
            && (IsMock(gw) ==> o.calls == [])
            && (!sub.cancelAtPeriodEnd && Truthy(sub.razorpaySubscriptionId) && !IsMock(gw) ==>
                  o.calls == [CancelSubscription(sub.razorpaySubscriptionId.value, 1)]
                  && (cancelled.Raised? ==> o.reply == Fail(500, GatewayFailed(cancelled.message)) && o.tables == t)))
  {
  }

  /** A successful cancel that was not already scheduled sets the flag and
      the time on the ACTIVE subscription, and changes nothing else. */
  lemma CancelSetsOnlyTheFlag(t: Tables, userId: int, gw: Config, now: Time, cancelled: Call<()>)
    ensures var o := CancelSpec(t, userId, gw, now, cancelled);
      o.reply.Ok? && !o.reply.value.AlreadyScheduled? ==>
        var k := ActiveSubscriptionIndex(t, userId).value;
        && !t.subscriptions[k].cancelAtPeriodEnd
        && o.tables == t.(subscriptions := t.subscriptions[k := t.subscriptions[k].(cancelAtPeriodEnd := true, cancelledAt := Some(now))])
  {
  }

  /** Cancelling twice is cancelling once: the second request finds the
      subscription scheduled, calls nothing and writes nothing. */
  lemma CancelIdempotent(t: Tables, userId: int, gw: Config, now: Time, cancelled: Call<()>,
                         gw': Config, now': Time, cancelled': Call<()>)
    requires CancelSpec(t, userId, gw, now, cancelled).reply.Ok?
    ensures var o := CancelSpec(t, userId, gw, now, cancelled);
      var o' := CancelSpec(o.tables, userId, gw', now', cancelled');
      o'.tables == o.tables && o'.calls == [] && o'.reply.Ok? && o'.reply.value.AlreadyScheduled?
  {
    var k := ActiveSubscriptionIndex(t, userId).value;
    var o := CancelSpec(t, userId, gw, now, cancelled);
    if !t.subscriptions[k].cancelAtPeriodEnd {
      var t' := WithCancellation(t, k, true, Some(now));
      assert o.tables == t';
      SameActiveSubscription(t, k, true, Some(now), userId);
      assert t'.subscriptions[k].cancelAtPeriodEnd;
    }
  }

  /** Without an ACTIVE subscription resume is 404; an unscheduled one is
      answered `not_cancelled` with nothing written; a successful resume
      clears both columns of the ACTIVE subscription and nothing else. */
  lemma ResumeCases(t: Tables, userId: int)
    ensures var o := ResumeSpec(t, userId);
      && (ActiveSubscriptionIndex(t, userId).None? ==> o == Outcome(Fail(404, NoActiveSubscription), t, []))
      && (ActiveSubscriptionIndex(t, userId).Some? ==>
            var k := ActiveSubscriptionIndex(t, userId).value;
            && (!t.subscriptions[k].cancelAtPeriodEnd ==> o == Outcome(Ok(NotCancelled), t, []))
            && (o.reply == Ok(Resumed) ==>
                  o.tables == t.(subscriptions := t.subscriptions[k := t.subscriptions[k].(cancelAtPeriodEnd := false, cancelledAt := None)])))
  {
  }

  /** Resuming twice is resuming once. */
  lemma ResumeIdempotent(t: Tables, userId: int)
    requires ResumeSpec(t, userId).reply.Ok?
    ensures var o := ResumeSpec(t, userId);
      ResumeSpec(o.tables, userId) == Outcome(Ok(NotCancelled), o.tables, [])
  {
    var k := ActiveSubscriptionIndex(t, userId).value;
    SameActiveSubscription(t, k, false, None, userId);
  }

  /** Cancel followed by resume leaves the subscription with the flag unset
      and no cancellation time; when it had no cancellation time before, the
      tables are exactly as they were. */
  lemma CancelThenResume(t: Tables, userId: int, gw: Config, now: Time, cancelled: Call<()>)
    requires Consistent(t)
    requires CancelSpec(t, userId, gw, now, cancelled).reply.Ok?
    requires !CancelSpec(t, userId, gw, now, cancelled).reply.value.AlreadyScheduled?
    ensures var t1 := CancelSpec(t, userId, gw, now, cancelled).tables;
      var o := ResumeSpec(t1, userId);
      var k := ActiveSubscriptionIndex(t, userId).value;
      && o.reply == Ok(Resumed)
      && !o.tables.subscriptions[k].cancelAtPeriodEnd && o.tables.subscriptions[k].cancelledAt.None?
      && (t.subscriptions[k].cancelledAt.None? ==> o.tables == t)
  {
    var k := ActiveSubscriptionIndex(t, userId).value;
    var t1 := CancelSpec(t, userId, gw, now, cancelled).tables;
    assert t1 == WithCancellation(t, k, true, Some(now));
    SameActiveSubscription(t, k, true, Some(now), userId);
    var t2 := WithCancellation(t1, k, false, None);
    assert Consistent(t2);
    if t.subscriptions[k].cancelledAt.None? {
      assert t2.subscriptions == t.subscriptions;
    }
  }
}
