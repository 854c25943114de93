/**
 * The payment endpoints (aspy_backend/app/api/v1/payments.py): creating a
 * gateway subscription with a pending invoice, verifying the payment that
 * settles it, the payment history, invoice download, and the plan-features
 * text. Each endpoint that writes is a method on the request's `Session`,
 * proved to end in the state and reply that a pure function of the tables
 * (its `...Spec`) prescribes; the properties are lemmas about those
 * functions.
 */
module Payments {
  import opened Common
  import opened Models
  import opened Store
  import opened Gateway
  import Text

  /** Why an endpoint answered with an error. */
  datatype Cause =
    | PlanNotFound
    | PlanNotConfigured
    | GatewayFailed(message: string)
    | CommitFailed
    | InvoiceNotFound
    | InvalidSignature
    | PaymentFetchFailed(message: string)
    | InvoiceUrlUnavailable
    | NoActiveSubscription
    | NotLinkedToGateway
    | TestMode

  /** What a request leaves behind: its reply, the durable tables, and the
      gateway requests it made, in order. */
  datatype Outcome<T> = Outcome(reply: Reply<T, Cause>, tables: Tables, calls: seq<Request>)

  // ---------------------------------------------------------------------
  // format_plan_features (lines 35-55)
  // ---------------------------------------------------------------------

  const FeaturesFallback := "View features for details"

  /** `str(value)` for the values a features object holds; booleans print as
      Yes/No. */
  function RenderValue(v: FeatureValue): (r: string)
    ensures v.FBool? ==> r in {"Yes", "No"} && (r == "Yes" <==> v.b)
    ensures v.FInt? && v.i >= 0 ==> (forall k :: 0 <= k < |r| ==> Text.IsDigitChar(r[k])) && Text.DigitsValue(r) == v.i
    ensures v.FInt? && v.i < 0 ==>
      && |r| > 1 && r[0] == '-'
      && (forall k :: 1 <= k < |r| ==> Text.IsDigitChar(r[k])) && Text.DigitsValue(r[1..]) == -v.i
  {
    match v
    case FBool(b) => if b then "Yes" else "No"
    case FInt(i) =>
      var r := Text.IntToString(i);
      Text.NatToStringRoundTrip(if i < 0 then -i else i);
      assert i < 0 ==> r[1..] == Text.NatToString(-i);
      r
    case FText(s) => s
    case FNull => "None"
  }

  /** `key.replace('_', ' ').title()`: as long as the key, and without
      underscores. */
  function FeatureLabel(key: string): (r: string)
    ensures |r| == |key|
    ensures '_' !in r
  {
    var spaced := Text.ReplaceAll(key, "_", " ");
    ReplaceCharGone(key, '_', ' ');
    TitleKeepsAbsentSymbol(spaced, '_');
    Text.Title(spaced)
  }

  /** `title()` changes only letters, so a symbol it is not given it does
      not produce. */
  lemma TitleKeepsAbsentSymbol(s: string, c: char)
    requires !Text.IsLetter(c) && c !in s
    ensures |Text.Title(s)| == |s| && c !in Text.Title(s)
  {
    forall i | 0 <= i < |s|
      ensures Text.Title(s)[i] != c
    {
      Text.TitleAt(s, i);
      assert s[i] in s;
    }
  }

  function FeatureEntry(e: (string, FeatureValue)): string
  {
    FeatureLabel(e.0) + ": " + RenderValue(e.1)
  }

  /** The text the endpoint shows for a plan's features: the fallback
      exactly for features that cannot be read, and a text holding ':' for a
      non-empty object. */
  function FormattedFeatures(f: Features): (r: string)
    ensures r == FeaturesFallback <==> f.Unreadable?
    ensures f.Mapping? && |f.entries| > 0 ==> ':' in r
  {
    match f
    case Unreadable => FeaturesFallback
    case Missing => ""
    case Mapping(es) =>
      var items := seq(|es|, i requires 0 <= i < |es| => FeatureEntry(es[i]));
      if |es| > 0 then
        JoinedFeaturesAreNotFallback(items, es[0]);
        Text.Join(items, " | ")
      else Text.Join(items, " | ")
  }

  /** Builds the list of "Label: value" entries in a loop, one per key in the
      object's order, and joins them with " | "; a features value that cannot
      be read as an object gives the fallback text. */
  method FormatPlanFeatures(plan: Plan) returns (text: string)
    ensures text == FormattedFeatures(plan.features)
    ensures plan.features.Unreadable? <==> text == FeaturesFallback
  {
    if plan.features.Unreadable? {
      return FeaturesFallback;
    }
    var entries := if plan.features.Mapping? then plan.features.entries else [];
    var items := EntryTexts(entries);
    text := Text.Join(items, " | ");
  }

  /** The loop of lines 43-51: one "Label: value" text per entry, in order. */
  method EntryTexts(entries: seq<(string, FeatureValue)>) returns (items: seq<string>)
    ensures items == seq(|entries|, k requires 0 <= k < |entries| => FeatureEntry(entries[k]))
  {
    items := [];
    var i := 0;
    while i < |entries|
      invariant 0 <= i <= |entries|
      invariant |items| == i
      invariant forall k :: 0 <= k < i ==> items[k] == FeatureEntry(entries[k])
    {
      items := items + [FeatureEntry(entries[i])];
      i := i + 1;
    }
  }

  lemma JoinKeepsFirst(items: seq<string>, sep: string)
    requires |items| > 0
    ensures |items[0]| <= |Text.Join(items, sep)|
    ensures Text.Join(items, sep)[..|items[0]|] == items[0]
  {
    if |items| > 1 {
      var j := Text.Join(items, sep);
      assert j == items[0] + (sep + Text.Join(items[1..], sep));
    }
  }

  /** No joined list of entries reads as the fallback text: the first entry
      holds a ':', which the fallback does not. */
  lemma JoinedFeaturesAreNotFallback(items: seq<string>, e: (string, FeatureValue))
    requires |items| > 0 && items[0] == FeatureEntry(e)
    ensures Text.Join(items, " | ") != FeaturesFallback
    ensures ':' in Text.Join(items, " | ")
  {
    var j := Text.Join(items, " | ");
    var lab := FeatureLabel(e.0);
    JoinKeepsFirst(items, " | ");
    assert items[0][|lab|] == ':';
    assert j[|lab|] == ':';
    assert j[|lab|] in j;
    assert ':' !in FeaturesFallback;
  }

  lemma {:induction false} ReplaceCharGone(s: string, c: char, d: char)
    requires c != d
    ensures c !in Text.ReplaceAll(s, [c], [d])
    ensures |Text.ReplaceAll(s, [c], [d])| == |s|
    decreases |s|
  {
    if |s| > 0 {
      ReplaceCharGone(s[1..], c, d);
      if Text.StartsWith(s, [c]) {
        assert s[|[c]|..] == s[1..];
      }
    }
  }

  /** A feature label keeps the key's length, has no underscore left, and
      starts every word with a capital. */
  lemma FeatureLabelShape(key: string, i: nat)
    requires i < |key|
    ensures |FeatureLabel(key)| == |key|
    ensures FeatureLabel(key)[i] != '_'
    ensures key[i] == '_' ==> FeatureLabel(key)[i] == ' '
    ensures Text.IsLetter(key[i]) && (i == 0 || !Text.IsLetter(key[i - 1])) ==> Text.IsUpperChar(FeatureLabel(key)[i])
  {
    var spaced := Text.ReplaceAll(key, "_", " ");
    ReplaceCharGone(key, '_', ' ');
    ReplaceAtIndex(key, '_', ' ', i);
    Text.TitleAt(spaced, i);
    if i > 0 {
      ReplaceAtIndex(key, '_', ' ', i - 1);
    }
    assert spaced[i] != '_' by {
      assert spaced[i] in spaced;
    }
  }

  lemma {:induction false} ReplaceAtIndex(s: string, c: char, d: char, i: nat)
    requires i < |s| && c != d
    ensures |Text.ReplaceAll(s, [c], [d])| == |s|
    ensures Text.ReplaceAll(s, [c], [d])[i] == if s[i] == c then d else s[i]
    decreases |s|
  {
    ReplaceCharGone(s, c, d);
    if i > 0 {
      ReplaceAtIndex(s[1..], c, d, i - 1);
      ReplaceCharGone(s[1..], c, d);
      if Text.StartsWith(s, [c]) {
        assert s[|[c]|..] == s[1..];
      }
    }
  }

  // ---------------------------------------------------------------------
  // create_razorpay_subscription (lines 62-148)
  // ---------------------------------------------------------------------

  datatype OrderReply = OrderReply(orderId: string, amount: int, currency: string, keyId: string)

  /** The id handed out in mock mode: `sub_mock_{user}_{seconds}`. */
  function MockSubscriptionId(userId: int, now: Time): string
  {
    "sub_mock_" + Text.IntToString(userId) + "_" + Text.IntToString(now)
  }

  /** The user row gets the gateway customer id (line 105). */
  function SetCustomerId(t: Tables, userId: int, customerId: string): (r: Tables)
    ensures |r.users| == |t.users|
    ensures r == t.(users := r.users)
  {
    t.(users := seq(|t.users|, i requires 0 <= i < |t.users| =>
      if t.users[i].id == userId then t.users[i].(razorpayCustomerId := Some(customerId)) else t.users[i]))
  }

  /** The gateway subscription request of lines 109-121: twelve monthly
      charges, one unit, the customer notified. */
  function SubscriptionRequestFor(planRef: string, plan: Plan, caller: User, customerRef: string): Request
  {
    CreateSubscription(planRef, customerRef, 12, 1, 1,
      [("user_id", Text.IntToString(caller.id)), ("username", caller.username),
       ("plan_id", Text.IntToString(plan.id)), ("plan_name", plan.name)])
  }

  /** The pending invoice of lines 126-134, in rupees, keyed by the gateway
      subscription id. */
  function PendingInvoice(id: int, userId: int, plan: Plan, ref: string, now: Time): Invoice
  {
    Invoice(id, userId, None, None, plan.price as real / 100.0, plan.currency, "pending",
            Some(ref), None, Some(plan.id), now, None)
  }

  function AddInvoice(t: Tables, inv: Invoice): Tables
  {
    t.(invoices := t.invoices + [inv], nextId := t.nextId + 1)
  }

  function CreateSubscriptionSpec(t: Tables, caller: User, planId: int, gw: Config, now: Time,
                                  customer: Call<string>, created: Call<string>): (o: Outcome<OrderReply>)
    ensures Consistent(t) ==> Consistent(o.tables)
  {
    match FindPlan(t, planId)
    case None => Outcome(Fail(404, PlanNotFound), t, [])
    case Some(plan) =>
      if !Truthy(plan.razorpayPlanId) then Outcome(Fail(400, PlanNotConfigured), t, [])
      else if IsMock(gw) then
        Outcome(Ok(OrderReply(MockSubscriptionId(caller.id, now), plan.price, plan.currency, "dummy_key_id")), t, [])
      else CreateLiveSpec(t, caller, plan, gw, now, customer, created)
  }

  /** The live branch (lines 96-106): create and commit the gateway customer
      when the user has none, then create the subscription. */
  function CreateLiveSpec(t: Tables, caller: User, plan: Plan, gw: Config, now: Time,
                          customer: Call<string>, created: Call<string>): (o: Outcome<OrderReply>)
    requires plan.razorpayPlanId.Some?
    ensures Consistent(t) ==> Consistent(o.tables)
  {
    if Truthy(caller.razorpayCustomerId) then
      SubscribeSpec(t, caller, plan, gw, now, caller.razorpayCustomerId.value, created, [])
    else
      var asked := [CreateCustomer(caller.username, caller.email, Text.IntToString(caller.id))];
      if customer.Raised? then Outcome(Fail(500, GatewayFailed(customer.message)), t, asked)
      else if !Consistent(SetCustomerId(t, caller.id, customer.value)) then Outcome(Fail(500, CommitFailed), t, asked)
      else SubscribeSpec(SetCustomerId(t, caller.id, customer.value), caller, plan, gw, now, customer.value, created, asked)
  }

  /** The subscription request on the gateway, then the PENDING invoice for
      it (lines 108-148); a failed commit leaves the tables as the customer
      stage left them. */
  function SubscribeSpec(t: Tables, caller: User, plan: Plan, gw: Config, now: Time, customerRef: string,
                         created: Call<string>, asked: seq<Request>): (o: Outcome<OrderReply>)
    requires plan.razorpayPlanId.Some?
    ensures Consistent(t) ==> Consistent(o.tables)
  {
    var calls := asked + [SubscriptionRequestFor(plan.razorpayPlanId.value, plan, caller, customerRef)];
    if created.Raised? then Outcome(Fail(500, GatewayFailed(created.message)), t, calls)
    else
      var t2 := AddInvoice(t, PendingInvoice(t.nextId, caller.id, plan, created.value, now));
      if Consistent(t2) then Outcome(Ok(OrderReply(created.value, plan.price, plan.currency, gw.keyId)), t2, calls)
      else Outcome(Fail(500, CommitFailed), t, calls)
  }

  /** The endpoint on the request's session. */
  method CreateRazorpaySubscription(s: Session, caller: User, planId: int, gw: Config, now: Time,
                                    customer: Call<string>, created: Call<string>)
    returns (reply: Reply<OrderReply, Cause>, calls: seq<Request>)
    requires s.Idle()
    modifies s
    ensures var o := CreateSubscriptionSpec(old(s.db), caller, planId, gw, now, customer, created);
      reply == o.reply && calls == o.calls && s.db == o.tables && s.committed == o.tables
  {
    var found := FindPlan(s.db, planId);
    if found.None? {
      return Fail(404, PlanNotFound), [];
    }
    var plan := found.value;
    if !Truthy(plan.razorpayPlanId) {
      return Fail(400, PlanNotConfigured), [];
    }
    if IsMock(gw) {
      return Ok(OrderReply(MockSubscriptionId(caller.id, now), plan.price, plan.currency, "dummy_key_id")), [];
    }
    reply, calls := CreateLive(s, caller, plan, gw, now, customer, created);
  }

  /** Lines 96-106 on the session. */
  method CreateLive(s: Session, caller: User, plan: Plan, gw: Config, now: Time,
                    customer: Call<string>, created: Call<string>)
    returns (reply: Reply<OrderReply, Cause>, calls: seq<Request>)
    requires s.Idle() && plan.razorpayPlanId.Some?
    modifies s
    ensures var o := CreateLiveSpec(old(s.db), caller, plan, gw, now, customer, created);
      reply == o.reply && calls == o.calls && s.db == o.tables && s.committed == o.tables
  {
    if Truthy(caller.razorpayCustomerId) {
      reply, calls := Subscribe(s, caller, plan, gw, now, caller.razorpayCustomerId.value, created, []);
      return;
    }
    calls := [CreateCustomer(caller.username, caller.email, Text.IntToString(caller.id))];
    if customer.Raised? {
      s.Rollback();
      return Fail(500, GatewayFailed(customer.message)), calls;
    }
    s.db := SetCustomerId(s.db, caller.id, customer.value);
    var ok := s.Commit();
    if !ok {
      s.Rollback();
      return Fail(500, CommitFailed), calls;
    }
    reply, calls := Subscribe(s, caller, plan, gw, now, customer.value, created, calls);
  }

  /** Lines 108-148 on the session. */
  method Subscribe(s: Session, caller: User, plan: Plan, gw: Config, now: Time, customerRef: string,
                   created: Call<string>, asked: seq<Request>)
    returns (reply: Reply<OrderReply, Cause>, calls: seq<Request>)
    requires s.Idle() && plan.razorpayPlanId.Some?
    modifies s
    ensures var o := SubscribeSpec(old(s.db), caller, plan, gw, now, customerRef, created, asked);
      reply == o.reply && calls == o.calls && s.db == o.tables && s.committed == o.tables
  {
    calls := asked + [SubscriptionRequestFor(plan.razorpayPlanId.value, plan, caller, customerRef)];
    if created.Raised? {
      s.Rollback();
      return Fail(500, GatewayFailed(created.message)), calls;
    }
    s.db := AddInvoice(s.db, PendingInvoice(s.db.nextId, caller.id, plan, created.value, now));
    var ok := s.Commit();
    if !ok {
      s.Rollback();
      return Fail(500, CommitFailed), calls;
    }
    reply := Ok(OrderReply(created.value, plan.price, plan.currency, gw.keyId));
  }

  /** Create rejects an unknown plan (404) and an unconfigured plan (400)
      before writing anything or calling the gateway. */
  lemma CreateRejectsBeforeWriting(t: Tables, caller: User, planId: int, gw: Config, now: Time,
                                   customer: Call<string>, created: Call<string>)
    ensures var o := CreateSubscriptionSpec(t, caller, planId, gw, now, customer, created);
      && (FindPlan(t, planId).None? ==> o == Outcome(Fail(404, PlanNotFound), t, []))
      && (FindPlan(t, planId).Some? && !Truthy(FindPlan(t, planId).value.razorpayPlanId) ==>
            o == Outcome(Fail(400, PlanNotConfigured), t, []))
  {
  }

  /** In mock mode create writes nothing, calls nothing, and answers with a
      `sub_mock_{user}_` id and the price in paise. */
  lemma CreateMockWritesNothing(t: Tables, caller: User, planId: int, gw: Config, now: Time,
                                customer: Call<string>, created: Call<string>)
    requires IsMock(gw)
    ensures var o := CreateSubscriptionSpec(t, caller, planId, gw, now, customer, created);
      && o.tables == t && o.calls == []
      && (o.reply.Ok? ==>
            && Text.StartsWith(o.reply.value.orderId, "sub_mock_" + Text.IntToString(caller.id) + "_")
            && o.reply.value.amount == FindPlan(t, planId).value.price
            && o.reply.value.keyId == "dummy_key_id")
  {
    var o := CreateSubscriptionSpec(t, caller, planId, gw, now, customer, created);
    if o.reply.Ok? {
      var p := "sub_mock_" + Text.IntToString(caller.id) + "_";
      assert o.reply.value.orderId == p + Text.IntToString(now);
      assert (p + Text.IntToString(now))[..|p|] == p;
    }
  }

  /** A successful live create adds exactly one invoice: pending, for the
      plan's price in rupees, keyed by the gateway subscription id the reply
      carries, while the reply's amount stays in paise. */
  lemma CreateLiveAddsPendingInvoice(t: Tables, caller: User, planId: int, gw: Config, now: Time,
                                     customer: Call<string>, created: Call<string>)
    requires !IsMock(gw)
    ensures var o := CreateSubscriptionSpec(t, caller, planId, gw, now, customer, created);
      o.reply.Ok? ==>
        var plan := FindPlan(t, planId).value;
        && |o.tables.invoices| == |t.invoices| + 1
        && o.tables.invoices[..|t.invoices|] == t.invoices
        && var inv := o.tables.invoices[|t.invoices|];
        && inv.status == "pending" && inv.userId == caller.id
        && inv.amount == plan.price as real / 100.0
        && inv.razorpayOrderId == Some(o.reply.value.orderId) && inv.planId == Some(plan.id)
        && o.reply.value.amount == plan.price
        && o.reply.value.keyId == gw.keyId
  {
    match FindPlan(t, planId)
    case None =>
    case Some(plan) =>
      if Truthy(plan.razorpayPlanId) {
        assert CreateSubscriptionSpec(t, caller, planId, gw, now, customer, created) ==
          CreateLiveSpec(t, caller, plan, gw, now, customer, created);
        if Truthy(caller.razorpayCustomerId) {
          SubscribeAddsPendingInvoice(t, caller, plan, gw, now, caller.razorpayCustomerId.value, created, []);
        } else if customer.Returned? {
          SubscribeAddsPendingInvoice(SetCustomerId(t, caller.id, customer.value), caller, plan, gw, now,
                                      customer.value, created,
                                      [CreateCustomer(caller.username, caller.email, Text.IntToString(caller.id))]);
        }
      }
  }

  lemma SubscribeAddsPendingInvoice(t: Tables, caller: User, plan: Plan, gw: Config, now: Time, customerRef: string,
                                    created: Call<string>, asked: seq<Request>)
    requires plan.razorpayPlanId.Some?
    ensures var o := SubscribeSpec(t, caller, plan, gw, now, customerRef, created, asked);
      o.reply.Ok? ==>
        && o.tables.invoices == t.invoices + [o.tables.invoices[|t.invoices|]]
        && var inv := o.tables.invoices[|t.invoices|];
        && inv.status == "pending" && inv.userId == caller.id
        && inv.amount == plan.price as real / 100.0
        && inv.razorpayOrderId == Some(o.reply.value.orderId) && inv.planId == Some(plan.id)
        && o.reply.value.amount == plan.price
        && o.reply.value.keyId == gw.keyId
  {
  }

  /** A failed create leaves the tables as they were, except that a customer
      id committed at line 106 before a later failure survives. */
  lemma CreateFailureKeepsOnlyCustomer(t: Tables, caller: User, planId: int, gw: Config, now: Time,
                                       customer: Call<string>, created: Call<string>)
    ensures var o := CreateSubscriptionSpec(t, caller, planId, gw, now, customer, created);
      o.reply.Fail? ==>
        && o.reply.status in {400, 404, 500}
        && (o.tables == t || (customer.Returned? && o.tables == SetCustomerId(t, caller.id, customer.value)))
        && o.tables.invoices == t.invoices
  {
    match FindPlan(t, planId)
    case None =>
    case Some(plan) =>
      if Truthy(plan.razorpayPlanId) && !IsMock(gw) {
        assert CreateSubscriptionSpec(t, caller, planId, gw, now, customer, created) ==
          CreateLiveSpec(t, caller, plan, gw, now, customer, created);
        if Truthy(caller.razorpayCustomerId) {
          SubscribeFailureKeeps(t, caller, plan, gw, now, caller.razorpayCustomerId.value, created, []);
        } else if customer.Returned? {
          SubscribeFailureKeeps(SetCustomerId(t, caller.id, customer.value), caller, plan, gw, now,
                                customer.value, created,
                                [CreateCustomer(caller.username, caller.email, Text.IntToString(caller.id))]);
        }
      }
  }

  lemma SubscribeFailureKeeps(t: Tables, caller: User, plan: Plan, gw: Config, now: Time, customerRef: string,
                              created: Call<string>, asked: seq<Request>)
    requires plan.razorpayPlanId.Some?
    ensures var o := SubscribeSpec(t, caller, plan, gw, now, customerRef, created, asked);
      o.reply.Fail? ==> o.reply.status == 500 && o.tables == t
  {
  }

  /** The customer id survives: when the user had no customer id, the
      customer is created and committed, and the gateway then refuses the
      subscription, the user keeps the new customer id. */
  lemma CreateKeepsCommittedCustomer(t: Tables, caller: User, planId: int, gw: Config, now: Time,
                                     cid: string, message: string, k: nat)
    requires FindPlan(t, planId).Some? && Truthy(FindPlan(t, planId).value.razorpayPlanId)
    requires !IsMock(gw) && !Truthy(caller.razorpayCustomerId)
    requires Consistent(t) && k < |t.users| && t.users[k].id == caller.id
    ensures var o := CreateSubscriptionSpec(t, caller, planId, gw, now, Returned(cid), Raised(message));
      && o.reply == Fail(500, GatewayFailed(message))
      && o.tables.users[k].razorpayCustomerId == Some(cid)
  {
    assert Consistent(SetCustomerId(t, caller.id, cid));
  }

  // ---- the mock id ----

  /** `str(i)` never contains an underscore, starts with '-' exactly for a
      negative number, and tells integers apart. */
  lemma IntToStringInjective(i: int, j: int)
    ensures '_' !in Text.IntToString(i)
    ensures Text.IntToString(i)[0] == '-' <==> i < 0
    ensures Text.IntToString(i) == Text.IntToString(j) ==> i == j
  {
    IntToStringShape(i);
    IntToStringShape(j);
    var si, sj := Text.IntToString(i), Text.IntToString(j);
    if si == sj {
      if i < 0 {
        assert si[1..] == Text.NatToString(-i) && sj[1..] == Text.NatToString(-j);
        NatToStringInjective(-i, -j);
      } else {
        NatToStringInjective(i, j);
      }
    }
  }

  lemma NatToStringInjective(a: nat, b: nat)
    ensures Text.NatToString(a) == Text.NatToString(b) ==> a == b
  {
    Text.NatToStringRoundTrip(a);
    Text.NatToStringRoundTrip(b);
  }

  /** Every character of `str(i)` after a leading '-' is a digit. */
  lemma IntToStringShape(i: int)
    ensures '_' !in Text.IntToString(i)
    ensures Text.IntToString(i)[0] == '-' <==> i < 0
  {
    var s := Text.IntToString(i);
    var n := Text.NatToString(if i < 0 then -i else i);
    var d := if i < 0 then 1 else 0;
    assert s[d..] == n;
    forall k | 0 <= k < |s|
      ensures s[k] != '_' && (s[k] == '-' ==> k == 0 && i < 0)
    {
      if k >= d {
        assert s[k] == n[k - d] && Text.IsDigitChar(n[k - d]);
      }
    }
  }

  predicate IsUnderscore(ch: char)
  {
    ch == '_'
  }

  /** In `a + "_" + b` with no underscore in `a`, the first underscore sits
      right after `a`. */
  lemma FirstUnderscoreAfter(a: string, b: string)
    requires '_' !in a
    ensures FirstIndex(a + "_" + b, IsUnderscore) == Some(|a|)
  {
    var x := a + "_" + b;
    assert IsUnderscore(x[|a|]);
    forall k | 0 <= k < |a|
      ensures !IsUnderscore(x[k])
    {
      assert x[k] == a[k];
    }
  }

  lemma SplitAtUnderscore(a: string, b: string, c: string, d: string)
    requires '_' !in a && '_' !in c
    requires a + "_" + b == c + "_" + d
    ensures a == c && b == d
  {
    var x := a + "_" + b;
    FirstUnderscoreAfter(a, b);
    FirstUnderscoreAfter(c, d);
    assert |a| == |c|;
    assert a == x[..|a|] == c;
    assert b == x[|a| + 1..] == d;
  }

  /** Verify recognises every id that create hands out in mock mode, and
      different users or seconds never share a mock id. */
  lemma MockIdRecognised(userId: int, now: Time, userId': int, now': Time)
    ensures Text.StartsWith(MockSubscriptionId(userId, now), "sub_mock_")
    ensures MockSubscriptionId(userId, now) == MockSubscriptionId(userId', now') ==> userId == userId' && now == now'
  {
    var a, b := Text.IntToString(userId), Text.IntToString(now);
    var c, d := Text.IntToString(userId'), Text.IntToString(now');
    Text.PrefixSplit("sub_mock_", a + "_" + b);
    Text.PrefixSplit("sub_mock_", c + "_" + d);
    assert MockSubscriptionId(userId, now) == "sub_mock_" + (a + "_" + b);
    assert MockSubscriptionId(userId', now') == "sub_mock_" + (c + "_" + d);
    if MockSubscriptionId(userId, now) == MockSubscriptionId(userId', now') {
      IntToStringShape(userId);
      IntToStringShape(userId');
      SplitAtUnderscore(a, b, c, d);
      IntToStringInjective(userId, userId');
      IntToStringInjective(now, now');
    }
  }

  // ---------------------------------------------------------------------
  // verify_razorpay_payment (lines 152-321)
  // ---------------------------------------------------------------------

  datatype VerifyRequest = VerifyRequest(orderId: string, paymentId: string, signature: string)

  datatype VerifyReply = VerifyReply(paymentId: string, subscriptionRef: string, amount: real, currency: string)

  const Period := 30 * SecondsPerDay

  /** The invoice the request settles: pending, with this reference, of this
      user (lines 162-166). */
  predicate IsPendingFor(i: Invoice, orderId: string, userId: int)
  {
    i.razorpayOrderId == Some(orderId) && i.userId == userId && i.status == "pending"
  }

  function PendingInvoiceIndex(t: Tables, orderId: string, userId: int): (r: Option<nat>)
    ensures r.Some? ==> r.value < |t.invoices| && IsPendingFor(t.invoices[r.value], orderId, userId)
    ensures r.None? <==> forall k :: 0 <= k < |t.invoices| ==> !IsPendingFor(t.invoices[k], orderId, userId)
  {
    FirstIndex(t.invoices, (i: Invoice) => IsPendingFor(i, orderId, userId))
  }

  /** Mock mode, or a reference that create handed out in mock mode. */
  predicate VerifiesAsMock(gw: Config, orderId: string)
  {
    IsMock(gw) || Text.StartsWith(orderId, "sub_mock_")
  }

  /** The payment row of lines 213-225. */
  function CompletedPayment(id: int, userId: int, amount: real, currency: string, req: VerifyRequest,
                            invoiceRef: Option<string>, now: Time): Payment
  {
    Payment(id, userId, None, amount, currency, COMPLETED, "razorpay", Some(req.paymentId), Some(req.orderId),
            invoiceRef, Details([("method", "razorpay"), ("id", req.paymentId)]), now, Some(now))
  }

  function AddPayment(t: Tables, p: Payment): Tables
  {
    t.(payments := t.payments + [p], nextId := t.nextId + 1)
  }

  /** Lines 230-233. */
  function MarkPaid(inv: Invoice, paymentId: int, amount: real, now: Time): Invoice
  {
    inv.(status := "paid", paymentId := Some(paymentId), paidAt := Some(now), amount := amount)
  }

  /** Lines 273-277: an existing subscription moves to the plan, becomes
      ACTIVE and starts a fresh 30-day period. */
  function Renewed(sub: Subscription, planId: int, ref: string, now: Time): Subscription
  {
    sub.(planId := planId, status := ACTIVE, razorpaySubscriptionId := Some(ref),
         periodStart := Some(now), periodEnd := Some(now + Period))
  }

  /** The card columns copied from a payment's `card` entry; no entry clears
      them all. */
  function CardOf(c: Option<CardInfo>): Card
  {
    match c
    case None => NoCard
    case Some(ci) => Card(ci.last4, ci.network, ci.expMonth, ci.expYear)
  }

  predicate IsOwnedBy(s: Subscription, userId: int)
  {
    s.userId == userId
  }

  /** The row of "the user's subscription" that verify looks up by user
      alone, whatever its status (lines 251-253). */
  function OwnedIndex(t: Tables, userId: int): (r: Option<nat>)
    ensures r.Some? ==> r.value < |t.subscriptions| && t.subscriptions[r.value].userId == userId
    ensures r.None? <==> forall k :: 0 <= k < |t.subscriptions| ==> t.subscriptions[k].userId != userId
  {
    FirstIndex(t.subscriptions, (x: Subscription) => IsOwnedBy(x, userId))
  }

  /** Lines 249-303: when the invoice's plan exists, the user's first
      subscription of any status (or a new one) is put on that plan, gets the
      card when the payment was by card, and is linked to the payment and the
      invoice. */
  function ActivateSpec(t: Tables, userId: int, planId: Option<int>, ref: string, paymentMethod: Option<string>,
                        card: Option<CardInfo>, payIndex: nat, invIndex: nat, now: Time): (r: Tables)
    requires payIndex < |t.payments| && invIndex < |t.invoices|
    ensures |r.payments| == |t.payments| && |r.invoices| == |t.invoices|
    ensures r.users == t.users && r.plans == t.plans && r.languages == t.languages && r.executions == t.executions
    ensures forall k :: 0 <= k < |t.payments| && k != payIndex ==> r.payments[k] == t.payments[k]
    ensures r.payments[payIndex] == t.payments[payIndex].(subscriptionId := r.payments[payIndex].subscriptionId)
    ensures forall k :: 0 <= k < |t.invoices| && k != invIndex ==> r.invoices[k] == t.invoices[k]
    ensures r.invoices[invIndex] == t.invoices[invIndex].(subscriptionId := r.invoices[invIndex].subscriptionId)
  {
    match FindPlanOpt(t, planId)
    case None => t
    case Some(plan) =>
      var t1 := Placed(t, userId, plan.id, ref, now);
      var k := PlanSlot(t, userId);
      var sub := t1.subscriptions[k];
      var sub' := if paymentMethod == Some("card") then sub.(card := CardOf(card)) else sub;
      t1.(subscriptions := t1.subscriptions[k := sub'],
          payments := t1.payments[payIndex := t1.payments[payIndex].(subscriptionId := Some(sub.id))],
          invoices := t1.invoices[invIndex := t1.invoices[invIndex].(subscriptionId := Some(sub.id))])
  }

  /** Lines 250-277: the user's first subscription renewed on the plan, or a
      new ACTIVE one appended. */
  function Placed(t: Tables, userId: int, planId: int, ref: string, now: Time): (r: Tables)
    ensures PlanSlot(t, userId) < |r.subscriptions|
    ensures r.payments == t.payments && r.invoices == t.invoices
  {
    match OwnedIndex(t, userId)
    case None =>
      t.(subscriptions := t.subscriptions + [NewSubscription(t.nextId, userId, planId, ACTIVE, Some(ref),
                                                             Some(now), Some(now + Period), now)],
         nextId := t.nextId + 1)
    case Some(k) => t.(subscriptions := t.subscriptions[k := Renewed(t.subscriptions[k], planId, ref, now)])
  }

  /** The invoice as settling leaves it: paid by the payment, with the
      fetched short URL (or receipt) when the gateway was asked and answered
      with one (lines 213-245). */
  function SavedInvoice(inv: Invoice, paymentId: int, amount: real, now: Time, fetchUrl: bool,
                        invoiceData: Call<InvoiceInfo>): Invoice
  {
    var url := if fetchUrl && invoiceData.Returned? then OrElse(invoiceData.value.shortUrl, invoiceData.value.receipt) else None;
    var paid := MarkPaid(inv, paymentId, amount, now);
    if Truthy(url) then paid.(invoiceUrl := url) else paid
  }

  /** Lines 203-305 once the gateway answered (or mock mode stood in for
      it): record the payment, settle the invoice, put the user on the plan,
      commit. */
  function SettleSpec(t: Tables, userId: int, ii: nat, req: VerifyRequest, mock: bool, amount: real,
                      invoiceRef: Option<string>, paymentMethod: Option<string>, card: Option<CardInfo>,
                      calls: seq<Request>, invoiceData: Call<InvoiceInfo>, now: Time): (o: Outcome<VerifyReply>)
    requires ii < |t.invoices|
    ensures o.reply.Fail? ==> o.reply.status == 500 && o.tables == t
    ensures Consistent(t) ==> Consistent(o.tables)
  {
    var inv := t.invoices[ii];
    var t1 := AddPayment(t, CompletedPayment(t.nextId, userId, amount, inv.currency, req, invoiceRef, now));
    if !Consistent(t1) then Outcome(Fail(500, CommitFailed), t, calls)
    else
      var fetchUrl := !mock && Truthy(invoiceRef);
      var allCalls := calls + (if fetchUrl then [FetchInvoice(invoiceRef.value)] else []);
      var t2 := t1.(invoices := t1.invoices[ii := SavedInvoice(inv, t.nextId, amount, now, fetchUrl, invoiceData)]);
      var t3 := ActivateSpec(t2, userId, inv.planId, req.orderId, paymentMethod, card, |t.payments|, ii, now);
      if Consistent(t3) then Outcome(Ok(VerifyReply(req.paymentId, req.orderId, amount, inv.currency)), t3, allCalls)
      else Outcome(Fail(500, CommitFailed), t, allCalls)
  }

  function VerifySpec(t: Tables, userId: int, req: VerifyRequest, gw: Config, now: Time,
                      sig: SignatureCheck, fetched: Call<PaymentInfo>, invoiceData: Call<InvoiceInfo>): (o: Outcome<VerifyReply>)
    ensures o.reply.Fail? ==> o.reply.status == 500 && o.tables == t
    ensures Consistent(t) ==> Consistent(o.tables)
  {
    match PendingInvoiceIndex(t, req.orderId, userId)
    case None => Outcome(Fail(500, InvoiceNotFound), t, [])
    case Some(ii) => VerifyAfterLookup(t, ii, userId, req, gw, now, sig, fetched, invoiceData)
  }

  /** Lines 171-210: mock mode settles with the invoice's own amount; live
      mode checks the signature and fetches the payment first. */
  function VerifyAfterLookup(t: Tables, ii: nat, userId: int, req: VerifyRequest, gw: Config, now: Time,
                             sig: SignatureCheck, fetched: Call<PaymentInfo>, invoiceData: Call<InvoiceInfo>): (o: Outcome<VerifyReply>)
    requires ii < |t.invoices|
    ensures o.reply.Fail? ==> o.reply.status == 500 && o.tables == t
    ensures Consistent(t) ==> Consistent(o.tables)
  {
    if VerifiesAsMock(gw, req.orderId) then
      SettleSpec(t, userId, ii, req, true, t.invoices[ii].amount, Some("inv_mock_" + Text.IntToString(now)), Some("card"), None,
                 [], invoiceData, now)
    else VerifyLiveSpec(t, ii, userId, req, now, sig, fetched, invoiceData)
  }

  /** The fetched amount, in paise, as rupees (line 203). */
  function FetchedAmount(info: PaymentInfo): real
  {
    info.amount as real / 100.0
  }

  /** The gateway calls a live verify makes before it records the payment. */
  function LiveCalls(req: VerifyRequest): seq<Request>
  {
    [VerifySignature(req.orderId, req.paymentId, req.signature), FetchPayment(req.paymentId), FetchSubscription(req.orderId)]
  }

  /** Lines 176-204: a rejected signature or a failed payment fetch ends the
      request; any other outcome of the signature check lets it go on. */
  function VerifyLiveSpec(t: Tables, ii: nat, userId: int, req: VerifyRequest, now: Time,
                          sig: SignatureCheck, fetched: Call<PaymentInfo>, invoiceData: Call<InvoiceInfo>): (o: Outcome<VerifyReply>)
    requires ii < |t.invoices|
    ensures o.reply.Fail? ==> o.reply.status == 500 && o.tables == t
    ensures Consistent(t) ==> Consistent(o.tables)
  {
    var checked := [VerifySignature(req.orderId, req.paymentId, req.signature)];
    if sig == SignatureMismatch then Outcome(Fail(500, InvalidSignature), t, checked)
    else if fetched.Raised? then
      Outcome(Fail(500, PaymentFetchFailed(fetched.message)), t, checked + [FetchPayment(req.paymentId)])
    else
      SettleSpec(t, userId, ii, req, false, FetchedAmount(fetched.value), fetched.value.invoiceId,
                 fetched.value.paymentMethod, fetched.value.card,
                 LiveCalls(req), invoiceData, now)
  }

  /** The endpoint on the request's session. */
  method VerifyRazorpayPayment(s: Session, userId: int, req: VerifyRequest, gw: Config, now: Time,
                               sig: SignatureCheck, fetched: Call<PaymentInfo>, invoiceData: Call<InvoiceInfo>)
    returns (reply: Reply<VerifyReply, Cause>, calls: seq<Request>)
    requires s.Idle()
    modifies s
    ensures var o := VerifySpec(old(s.db), userId, req, gw, now, sig, fetched, invoiceData);
      reply == o.reply && calls == o.calls && s.db == o.tables && s.committed == o.tables
  {
    ghost var t := s.db;
    calls := [];
    var found := PendingInvoiceIndex(s.db, req.orderId, userId);
    if found.None? {
      s.Rollback();
      return Fail(500, InvoiceNotFound), calls;
    }
    var ii := found.value;
    assert VerifySpec(t, userId, req, gw, now, sig, fetched, invoiceData) == VerifyAfterLookup(t, ii, userId, req, gw, now, sig, fetched, invoiceData);
    reply, calls := VerifyFoundInvoice(s, ii, userId, req, gw, now, sig, fetched, invoiceData);
  }

  /** Lines 171-305, once the pending invoice is found. */
  method VerifyFoundInvoice(s: Session, ii: nat, userId: int, req: VerifyRequest, gw: Config, now: Time,
                            sig: SignatureCheck, fetched: Call<PaymentInfo>, invoiceData: Call<InvoiceInfo>)
    returns (reply: Reply<VerifyReply, Cause>, calls: seq<Request>)
    requires s.Idle() && ii < |s.db.invoices|
    modifies s
    ensures var o := VerifyAfterLookup(old(s.db), ii, userId, req, gw, now, sig, fetched, invoiceData);
      reply == o.reply && calls == o.calls && s.db == o.tables && s.committed == o.tables
  {
    ghost var t := s.db;
    if VerifiesAsMock(gw, req.orderId) {
      var inv := s.db.invoices[ii];
      assert VerifyAfterLookup(t, ii, userId, req, gw, now, sig, fetched, invoiceData) ==
        SettleSpec(t, userId, ii, req, true, inv.amount, Some("inv_mock_" + Text.IntToString(now)), Some("card"), None,
                   [], invoiceData, now);
      reply, calls := Settle(s, userId, ii, req, true, inv.amount, Some("inv_mock_" + Text.IntToString(now)),
                             Some("card"), None, [], invoiceData, now);
    } else {
      reply, calls := VerifyLive(s, ii, userId, req, now, sig, fetched, invoiceData);
    }
  }

  /** Lines 176-204: live mode checks the signature and fetches the payment
      before settling. */
  method VerifyLive(s: Session, ii: nat, userId: int, req: VerifyRequest, now: Time,
                    sig: SignatureCheck, fetched: Call<PaymentInfo>, invoiceData: Call<InvoiceInfo>)
    returns (reply: Reply<VerifyReply, Cause>, calls: seq<Request>)
    requires s.Idle() && ii < |s.db.invoices|
    modifies s
    ensures var o := VerifyLiveSpec(old(s.db), ii, userId, req, now, sig, fetched, invoiceData);
      reply == o.reply && calls == o.calls && s.db == o.tables && s.committed == o.tables
  {
    ghost var t := s.db;
    calls := [VerifySignature(req.orderId, req.paymentId, req.signature)];
    if sig == SignatureMismatch {
      s.Rollback();
      return Fail(500, InvalidSignature), calls;
    }
    calls := calls + [FetchPayment(req.paymentId)];
    if fetched.Raised? {
      s.Rollback();
      return Fail(500, PaymentFetchFailed(fetched.message)), calls;
    }
    calls := calls + [FetchSubscription(req.orderId)];
    assert calls == LiveCalls(req);
    assert VerifyLiveSpec(t, ii, userId, req, now, sig, fetched, invoiceData) ==
      SettleSpec(t, userId, ii, req, false, FetchedAmount(fetched.value), fetched.value.invoiceId,
                 fetched.value.paymentMethod, fetched.value.card, calls, invoiceData, now);
    reply, calls := Settle(s, userId, ii, req, false, FetchedAmount(fetched.value), fetched.value.invoiceId,
                           fetched.value.paymentMethod, fetched.value.card, calls, invoiceData, now);
  }

  /** The second half of the endpoint, from the payment record to the
      commit. */
  method Settle(s: Session, userId: int, ii: nat, req: VerifyRequest, mock: bool, amount: real,
                invoiceRef: Option<string>, paymentMethod: Option<string>, card: Option<CardInfo>,
                calls0: seq<Request>, invoiceData: Call<InvoiceInfo>, now: Time)
    returns (reply: Reply<VerifyReply, Cause>, calls: seq<Request>)
    requires s.Idle() && ii < |s.db.invoices|
    modifies s
    ensures var o := SettleSpec(old(s.db), userId, ii, req, mock, amount, invoiceRef, paymentMethod, card,
                                calls0, invoiceData, now);
      reply == o.reply && calls == o.calls && s.db == o.tables && s.committed == o.tables
  {
    calls := calls0;
    var inv := s.db.invoices[ii];
    var payIndex := |s.db.payments|;
    var paymentId := s.db.nextId;
    s.db := AddPayment(s.db, CompletedPayment(paymentId, userId, amount, inv.currency, req, invoiceRef, now));
    var flushed := s.Flush();
    if !flushed {
      s.Rollback();
      return Fail(500, CommitFailed), calls;
    }
    calls := StampInvoice(s, ii, paymentId, amount, now, mock, invoiceRef, invoiceData, calls);
    PutOnPlan(s, userId, inv.planId, req.orderId, paymentMethod, card, payIndex, ii, now);
    var ok := s.Commit();
    if !ok {
      s.Rollback();
      return Fail(500, CommitFailed), calls;
    }
    reply := Ok(VerifyReply(req.paymentId, req.orderId, amount, inv.currency));
  }

  /** Lines 247-303 on the session: find the plan, create or overwrite the
      user's subscription, copy the card, link payment and invoice. */
  method PutOnPlan(s: Session, userId: int, planId: Option<int>, ref: string, paymentMethod: Option<string>,
                   card: Option<CardInfo>, payIndex: nat, invIndex: nat, now: Time)
    requires payIndex < |s.db.payments| && invIndex < |s.db.invoices|
    modifies s
    ensures s.db == ActivateSpec(old(s.db), userId, planId, ref, paymentMethod, card, payIndex, invIndex, now)
    ensures s.committed == old(s.committed)
  {
    var plan := FindPlanOpt(s.db, planId);
    if plan.None? {
      return;
    }
    var k := PlaceOnPlan(s, userId, plan.value.id, ref, now);
    var t := s.db;
    var sub := t.subscriptions[k];
    if paymentMethod == Some("card") {
      sub := sub.(card := CardOf(card));
    }
    s.db := t.(subscriptions := t.subscriptions[k := sub],
               payments := t.payments[payIndex := t.payments[payIndex].(subscriptionId := Some(sub.id))],
               invoices := t.invoices[invIndex := t.invoices[invIndex].(subscriptionId := Some(sub.id))]);
  }

  /** Lines 213-245 on the session: mark the invoice paid and, live, store
      the invoice URL the gateway returns. */
  method StampInvoice(s: Session, ii: nat, paymentId: int, amount: real, now: Time, mock: bool,
                      invoiceRef: Option<string>, invoiceData: Call<InvoiceInfo>, calls0: seq<Request>)
    returns (calls: seq<Request>)
    requires ii < |s.db.invoices|
    modifies s
    ensures var fetchUrl := !mock && Truthy(invoiceRef);
      && s.db == old(s.db).(invoices := old(s.db).invoices[ii := SavedInvoice(old(s.db).invoices[ii], paymentId, amount, now, fetchUrl, invoiceData)])
      && calls == calls0 + (if fetchUrl then [FetchInvoice(invoiceRef.value)] else [])
    ensures s.committed == old(s.committed)
  {
    calls := calls0;
    var saved := MarkPaid(s.db.invoices[ii], paymentId, amount, now);
    if !mock && Truthy(invoiceRef) {
      calls := calls + [FetchInvoice(invoiceRef.value)];
      if invoiceData.Returned? {
        var url := OrElse(invoiceData.value.shortUrl, invoiceData.value.receipt);
        if Truthy(url) {
          saved := saved.(invoiceUrl := url);
        }
      }
    }
    s.db := s.db.(invoices := s.db.invoices[ii := saved]);
  }

  /** Lines 250-277 on the session: renew the user's first subscription on
      the plan, or add a new one; `k` is its row. */
  method PlaceOnPlan(s: Session, userId: int, planId: int, ref: string, now: Time) returns (k: nat)
    modifies s
    ensures s.db == Placed(old(s.db), userId, planId, ref, now) && k == PlanSlot(old(s.db), userId)
    ensures s.committed == old(s.committed)
  {
    var existing := OwnedIndex(s.db, userId);
    if existing.None? {
      k := |s.db.subscriptions|;
      var added := NewSubscription(s.db.nextId, userId, planId, ACTIVE, Some(ref), Some(now), Some(now + Period), now);
      s.db := s.db.(subscriptions := s.db.subscriptions + [added], nextId := s.db.nextId + 1);
    } else {
      k := existing.value;
      s.db := s.db.(subscriptions := s.db.subscriptions[k := Renewed(s.db.subscriptions[k], planId, ref, now)]);
    }
  }

  // ---- properties of verify ----

  /** A settled payment is recorded once: settling again with a payment id
      the ledger already holds breaks the uniqueness of `provider_payment_id`,
      so the commit fails and nothing changes. */
  lemma SettleRejectsKnownPayment(t: Tables, userId: int, ii: nat, req: VerifyRequest, mock: bool, amount: real,
                                  invoiceRef: Option<string>, paymentMethod: Option<string>, card: Option<CardInfo>,
                                  calls: seq<Request>, invoiceData: Call<InvoiceInfo>, now: Time, k: nat)
    requires ii < |t.invoices| && k < |t.payments| && t.payments[k].providerPaymentId == Some(req.paymentId)
    ensures var o := SettleSpec(t, userId, ii, req, mock, amount, invoiceRef, paymentMethod, card, calls, invoiceData, now);
      o.reply.Fail? && o.tables == t
  {
    var t1 := AddPayment(t, CompletedPayment(t.nextId, userId, amount, t.invoices[ii].currency, req, invoiceRef, now));
    assert t1.payments[k] == t.payments[k];
    assert t1.payments[|t.payments|].providerPaymentId == Some(req.paymentId);
    assert !UniqueProviderPaymentIds(t1.payments);
  }

  /** What settling records, for whichever amount and references the
      gateway step produced. */
  lemma SettleRecordsPayment(t: Tables, userId: int, ii: nat, req: VerifyRequest, mock: bool, amount: real,
                             invoiceRef: Option<string>, paymentMethod: Option<string>, card: Option<CardInfo>,
                             calls: seq<Request>, invoiceData: Call<InvoiceInfo>, now: Time)
    requires ii < |t.invoices|
    ensures var o := SettleSpec(t, userId, ii, req, mock, amount, invoiceRef, paymentMethod, card, calls, invoiceData, now);
      o.reply.Ok? ==> PaymentRecorded(t, o, userId, ii, req, amount, now)
  {
    var o := SettleSpec(t, userId, ii, req, mock, amount, invoiceRef, paymentMethod, card, calls, invoiceData, now);
    if o.reply.Ok? {
      forall k | 0 <= k < |t.payments|
        ensures o.tables.payments[k] == t.payments[k]
      {
      }
      assert o.tables.payments[..|t.payments|] == t.payments;
    }
  }

  /** The ledger after a successful verify, against the one before: one
      COMPLETED payment appended, by this user, through the gateway, carrying
      the request's ids; the settled invoice `paid` with that payment and
      the amount the reply reports; every other invoice unchanged. */
  ghost predicate PaymentRecorded(t: Tables, o: Outcome<VerifyReply>, userId: int, ii: nat, req: VerifyRequest,
                                  amount: real, now: Time)
    requires ii < |t.invoices|
  {
    && o.reply.Ok?
    && |o.tables.payments| == |t.payments| + 1
    && o.tables.payments[..|t.payments|] == t.payments
    && var p := o.tables.payments[|t.payments|];
    && p.id == t.nextId && p.userId == userId && p.status == COMPLETED && p.provider == "razorpay"
    && p.providerPaymentId == Some(req.paymentId) && p.providerOrderId == Some(req.orderId)
    && p.amount == amount
    && |o.tables.invoices| == |t.invoices|
    && (forall k :: 0 <= k < |t.invoices| && k != ii ==> o.tables.invoices[k] == t.invoices[k])
    && o.tables.invoices[ii].status == "paid"
    && o.tables.invoices[ii].paymentId == Some(p.id)
    && o.tables.invoices[ii].paidAt == Some(now)
    && o.tables.invoices[ii].amount == amount
    && o.reply.value.amount == amount
  }

  /** A successful verify appends one COMPLETED payment for the amount it
      reports. */
  lemma VerifyAppendsPayment(t: Tables, userId: int, req: VerifyRequest, gw: Config, now: Time,
                             sig: SignatureCheck, fetched: Call<PaymentInfo>, invoiceData: Call<InvoiceInfo>)
    ensures var o := VerifySpec(t, userId, req, gw, now, sig, fetched, invoiceData);
      o.reply.Ok? ==>
        && |o.tables.payments| == |t.payments| + 1
        && o.tables.payments == t.payments + [o.tables.payments[|t.payments|]]
        && o.tables.payments[|t.payments|].status == COMPLETED
        && o.tables.payments[|t.payments|].amount == o.reply.value.amount
  {
    VerifyRecordsOnePayment(t, userId, req, gw, now, sig, fetched, invoiceData);
    var o := VerifySpec(t, userId, req, gw, now, sig, fetched, invoiceData);
    if o.reply.Ok? {
      var ii := PendingInvoiceIndex(t, req.orderId, userId).value;
      var amount := if VerifiesAsMock(gw, req.orderId) then t.invoices[ii].amount else FetchedAmount(fetched.value);
      RecordedIsAppended(t, o, userId, ii, req, amount, now);
    }
  }

  lemma RecordedIsAppended(t: Tables, o: Outcome<VerifyReply>, userId: int, ii: nat, req: VerifyRequest,
                           amount: real, now: Time)
    requires ii < |t.invoices| && PaymentRecorded(t, o, userId, ii, req, amount, now)
    ensures o.reply.Ok? && |o.tables.payments| == |t.payments| + 1
    ensures o.tables.payments == t.payments + [o.tables.payments[|t.payments|]]
    ensures o.tables.payments[|t.payments|].status == COMPLETED
    ensures o.tables.payments[|t.payments|].amount == o.reply.value.amount
  {
    assert o.tables.payments == o.tables.payments[..|t.payments|] + [o.tables.payments[|t.payments|]];
  }

  /** A successful verify found a pending invoice, and in live mode the
      signature was not rejected and the payment was fetched; it records the
      payment once and settles the invoice, with the invoice's own amount in
      mock mode and the fetched amount over 100 in live mode. */
  lemma VerifyRecordsOnePayment(t: Tables, userId: int, req: VerifyRequest, gw: Config, now: Time,
                                sig: SignatureCheck, fetched: Call<PaymentInfo>, invoiceData: Call<InvoiceInfo>)
    ensures var o := VerifySpec(t, userId, req, gw, now, sig, fetched, invoiceData);
      o.reply.Ok? ==>
        && PendingInvoiceIndex(t, req.orderId, userId).Some?
        && (VerifiesAsMock(gw, req.orderId) || (sig != SignatureMismatch && fetched.Returned?))
        && var ii := PendingInvoiceIndex(t, req.orderId, userId).value;
        PaymentRecorded(t, o, userId, ii, req,
                        if VerifiesAsMock(gw, req.orderId) then t.invoices[ii].amount
                        else FetchedAmount(fetched.value), now)
  {
    match PendingInvoiceIndex(t, req.orderId, userId)
    case None =>
    case Some(ii) =>
      assert VerifySpec(t, userId, req, gw, now, sig, fetched, invoiceData) ==
        VerifyAfterLookup(t, ii, userId, req, gw, now, sig, fetched, invoiceData);
      if VerifiesAsMock(gw, req.orderId) {
        VerifyMockRecords(t, ii, userId, req, gw, now, sig, fetched, invoiceData);
      } else {
        VerifyLiveRecords(t, ii, userId, req, now, sig, fetched, invoiceData);
      }
  }

  lemma VerifyMockRecords(t: Tables, ii: nat, userId: int, req: VerifyRequest, gw: Config, now: Time,
                          sig: SignatureCheck, fetched: Call<PaymentInfo>, invoiceData: Call<InvoiceInfo>)
    requires ii < |t.invoices| && VerifiesAsMock(gw, req.orderId)
    ensures var o := VerifyAfterLookup(t, ii, userId, req, gw, now, sig, fetched, invoiceData);
      o.reply.Ok? ==> PaymentRecorded(t, o, userId, ii, req, t.invoices[ii].amount, now)
  {
    SettleRecordsPayment(t, userId, ii, req, true, t.invoices[ii].amount, Some("inv_mock_" + Text.IntToString(now)),
                         Some("card"), None, [], invoiceData, now);
  }

  lemma VerifyLiveRecords(t: Tables, ii: nat, userId: int, req: VerifyRequest, now: Time,
                          sig: SignatureCheck, fetched: Call<PaymentInfo>, invoiceData: Call<InvoiceInfo>)
    requires ii < |t.invoices|
    ensures var o := VerifyLiveSpec(t, ii, userId, req, now, sig, fetched, invoiceData);
      o.reply.Ok? ==> sig != SignatureMismatch && fetched.Returned? &&
                      PaymentRecorded(t, o, userId, ii, req, FetchedAmount(fetched.value), now)
  {
    if sig != SignatureMismatch && fetched.Returned? {
      SettleRecordsPayment(t, userId, ii, req, false, FetchedAmount(fetched.value), fetched.value.invoiceId,
                           fetched.value.paymentMethod, fetched.value.card,
                           LiveCalls(req), invoiceData, now);
      assert VerifyLiveSpec(t, ii, userId, req, now, sig, fetched, invoiceData) ==
        SettleSpec(t, userId, ii, req, false, FetchedAmount(fetched.value), fetched.value.invoiceId,
                   fetched.value.paymentMethod, fetched.value.card,
                   LiveCalls(req), invoiceData, now);
    }
  }

  /** A payment id already in the ledger is never recorded again: verify
      fails, whatever the gateway answers, and changes nothing. */
  lemma VerifyRejectsKnownPayment(t: Tables, userId: int, req: VerifyRequest, gw: Config, now: Time,
                                  sig: SignatureCheck, fetched: Call<PaymentInfo>, invoiceData: Call<InvoiceInfo>, k: nat)
    requires k < |t.payments| && t.payments[k].providerPaymentId == Some(req.paymentId)
    ensures var o := VerifySpec(t, userId, req, gw, now, sig, fetched, invoiceData);
      o.reply.Fail? && o.tables == t
  {
    match PendingInvoiceIndex(t, req.orderId, userId)
    case None =>
    case Some(ii) =>
      assert VerifySpec(t, userId, req, gw, now, sig, fetched, invoiceData) ==
        VerifyAfterLookup(t, ii, userId, req, gw, now, sig, fetched, invoiceData);
      if VerifiesAsMock(gw, req.orderId) {
        SettleRejectsKnownPayment(t, userId, ii, req, true, t.invoices[ii].amount, Some("inv_mock_" + Text.IntToString(now)),
                                  Some("card"), None, [], invoiceData, now, k);
        assert VerifyAfterLookup(t, ii, userId, req, gw, now, sig, fetched, invoiceData) ==
          SettleSpec(t, userId, ii, req, true, t.invoices[ii].amount, Some("inv_mock_" + Text.IntToString(now)),
                     Some("card"), None, [], invoiceData, now);
      } else {
        LiveRejectsKnownPayment(t, ii, userId, req, now, sig, fetched, invoiceData, k);
      }
  }

  lemma LiveRejectsKnownPayment(t: Tables, ii: nat, userId: int, req: VerifyRequest, now: Time,
                                sig: SignatureCheck, fetched: Call<PaymentInfo>, invoiceData: Call<InvoiceInfo>, k: nat)
    requires ii < |t.invoices| && k < |t.payments| && t.payments[k].providerPaymentId == Some(req.paymentId)
    ensures VerifyLiveSpec(t, ii, userId, req, now, sig, fetched, invoiceData).reply.Fail?
  {
    if sig != SignatureMismatch && fetched.Returned? {
      SettleRejectsKnownPayment(t, userId, ii, req, false, FetchedAmount(fetched.value), fetched.value.invoiceId,
                                fetched.value.paymentMethod, fetched.value.card,
                                LiveCalls(req), invoiceData, now, k);
      assert VerifyLiveSpec(t, ii, userId, req, now, sig, fetched, invoiceData) ==
        SettleSpec(t, userId, ii, req, false, FetchedAmount(fetched.value), fetched.value.invoiceId,
                   fetched.value.paymentMethod, fetched.value.card,
                   LiveCalls(req), invoiceData, now);
    }
  }

  /** Replaying a verify that succeeded, with any gateway answers and at any
      time, fails and changes nothing: an invoice pays at most once. */
  lemma VerifyReplayRejected(t: Tables, userId: int, req: VerifyRequest, gw: Config, now: Time,
                             sig: SignatureCheck, fetched: Call<PaymentInfo>, invoiceData: Call<InvoiceInfo>,
                             now': Time, sig': SignatureCheck, fetched': Call<PaymentInfo>, invoiceData': Call<InvoiceInfo>)
    requires VerifySpec(t, userId, req, gw, now, sig, fetched, invoiceData).reply.Ok?
    ensures var t' := VerifySpec(t, userId, req, gw, now, sig, fetched, invoiceData).tables;
      var o := VerifySpec(t', userId, req, gw, now', sig', fetched', invoiceData');
      o.reply.Fail? && o.tables == t' && |t'.payments| == |t.payments| + 1
  {
    VerifyRecordsOnePayment(t, userId, req, gw, now, sig, fetched, invoiceData);
    var t' := VerifySpec(t, userId, req, gw, now, sig, fetched, invoiceData).tables;
    VerifyRejectsKnownPayment(t', userId, req, gw, now', sig', fetched', invoiceData', |t.payments|);
  }

  // ---- the subscription verify puts on the plan ----

  /** The row verify puts on the plan: the user's first subscription, or a new
      one appended at the end. */
  function PlanSlot(t: Tables, userId: int): (r: nat)
    ensures r <= |t.subscriptions|
    ensures r < |t.subscriptions| ==> && t.subscriptions[r].userId == userId
                                      && forall k :: 0 <= k < r ==> t.subscriptions[k].userId != userId
    ensures r == |t.subscriptions| <==> forall k :: 0 <= k < |t.subscriptions| ==> t.subscriptions[k].userId != userId
  {
    match OwnedIndex(t, userId)
    case None => |t.subscriptions|
    case Some(k) => k
  }

  /** When the invoice's plan is missing the subscriptions are untouched;
      otherwise the user's subscription (found by user alone, or created) is
      ACTIVE on that plan with the order id as its reference and a period of
      exactly 30 days from now, both the payment and the invoice point to it,
      a card payment replaces all four card columns, and every other
      subscription stays as it was. A renewal keeps the cancellation flag; a
      new subscription starts unflagged and without a card. */
  lemma ActivatePutsOnPlan(t: Tables, userId: int, planId: Option<int>, ref: string, paymentMethod: Option<string>,
                           card: Option<CardInfo>, payIndex: nat, invIndex: nat, now: Time)
    requires payIndex < |t.payments| && invIndex < |t.invoices|
    ensures var r := ActivateSpec(t, userId, planId, ref, paymentMethod, card, payIndex, invIndex, now);
      FindPlanOpt(t, planId).None? ==> r == t
    ensures var r := ActivateSpec(t, userId, planId, ref, paymentMethod, card, payIndex, invIndex, now);
      var k := PlanSlot(t, userId);
      FindPlanOpt(t, planId).Some? ==>
        && k < |r.subscriptions|
        && |r.subscriptions| == |t.subscriptions| + (if OwnedIndex(t, userId).None? then 1 else 0)
        && (forall j :: 0 <= j < |t.subscriptions| && j != k ==> r.subscriptions[j] == t.subscriptions[j])
        && var sub := r.subscriptions[k];
        && sub.userId == userId && sub.planId == FindPlanOpt(t, planId).value.id && sub.status == ACTIVE
        && sub.razorpaySubscriptionId == Some(ref)
        && sub.periodStart == Some(now) && sub.periodEnd == Some(now + 30 * SecondsPerDay)
        && r.payments[payIndex].subscriptionId == Some(sub.id)
        && r.invoices[invIndex].subscriptionId == Some(sub.id)
        && (paymentMethod == Some("card") ==> sub.card == CardOf(card))
        && (OwnedIndex(t, userId).Some? ==>
              && sub.id == t.subscriptions[k].id
              && sub.cancelAtPeriodEnd == t.subscriptions[k].cancelAtPeriodEnd
              && sub.cancelledAt == t.subscriptions[k].cancelledAt
              && (paymentMethod != Some("card") ==> sub.card == t.subscriptions[k].card))
        && (OwnedIndex(t, userId).None? ==>
              && sub.id == t.nextId && !sub.cancelAtPeriodEnd && sub.cancelledAt.None?
              && (paymentMethod != Some("card") ==> sub.card == NoCard))
  {
  }

  /** Mock mode records the method "card" without a card entry, so a
      verified mock payment clears every card column of the subscription. */
  lemma MockPaymentClearsCard(t: Tables, userId: int, planId: Option<int>, ref: string,
                              payIndex: nat, invIndex: nat, now: Time)
    requires payIndex < |t.payments| && invIndex < |t.invoices| && FindPlanOpt(t, planId).Some?
    ensures var r := ActivateSpec(t, userId, planId, ref, Some("card"), None, payIndex, invIndex, now);
      PlanSlot(t, userId) < |r.subscriptions| && r.subscriptions[PlanSlot(t, userId)].card == NoCard
  {
    ActivatePutsOnPlan(t, userId, planId, ref, Some("card"), None, payIndex, invIndex, now);
  }

  // ---------------------------------------------------------------------
  // get_payment_history (lines 324-360)
  // ---------------------------------------------------------------------

  datatype HistoryEntry = HistoryEntry(
    id: int,
    amount: real,
    currency: string,
    status: string,
    provider: string,
    planName: Option<string>,
    paymentMethod: string,
    createdAt: Time)

  predicate IsPaymentOf(p: Payment, userId: int)
  {
    p.userId == userId
  }

  /** `a` may come before `b` in a list ordered by `created_at` descending. */
  predicate NewerOrSame(a: Payment, b: Payment)
  {
    a.createdAt >= b.createdAt
  }

  predicate NewestFirst(ps: seq<Payment>)
  {
    forall i, j :: 0 <= i < j < |ps| ==> NewerOrSame(ps[i], ps[j])
  }

  /** Puts `p` into a list ordered newest first, after every payment at least
      as new (so equal dates keep their order). */
  function InsertByDate(p: Payment, ps: seq<Payment>): (r: seq<Payment>)
    requires NewestFirst(ps)
    ensures NewestFirst(r)
    ensures multiset(r) == multiset(ps) + multiset{p}
    ensures |r| == |ps| + 1
  {
    if |ps| == 0 then [p]
    else if NewerOrSame(ps[0], p) then
      var rest := InsertByDate(p, ps[1..]);
      assert ps == [ps[0]] + ps[1..];
      HeadStaysFirst(ps, p, rest);
      [ps[0]] + rest
    else [p] + ps
  }

  /** The newest payment of a sorted list stays ahead of the list it heads
      once another, older payment is inserted into its tail. */
  lemma HeadStaysFirst(ps: seq<Payment>, p: Payment, rest: seq<Payment>)
    requires |ps| > 0 && NewestFirst(ps) && NewerOrSame(ps[0], p) && NewestFirst(rest)
    requires multiset(rest) == multiset(ps[1..]) + multiset{p}
    ensures NewestFirst([ps[0]] + rest)
  {
    forall k | 0 <= k < |rest|
      ensures NewerOrSame(ps[0], rest[k])
    {
      assert rest[k] in multiset(rest);
      if rest[k] != p {
        assert rest[k] in ps[1..];
        var j :| 0 <= j < |ps[1..]| && ps[1..][j] == rest[k];
        assert ps[j + 1] == rest[k];
      }
    }
    var r := [ps[0]] + rest;
    forall i, j | 0 <= i < j < |r|
      ensures NewerOrSame(r[i], r[j])
    {
      assert r[j] == rest[j - 1];
      if i > 0 {
        assert r[i] == rest[i - 1];
      }
    }
  }

  /** The query's `order_by(created_at.desc())`: the same payments, newest
      first. */
  function SortNewestFirst(ps: seq<Payment>): (r: seq<Payment>)
    ensures NewestFirst(r)
    ensures multiset(r) == multiset(ps)
  {
    if |ps| == 0 then []
    else
      assert ps == [ps[0]] + ps[1..];
      InsertByDate(ps[0], SortNewestFirst(ps[1..]))
  }

  /** `.order_by(created_at.desc()).first()` over the payments a filter
      keeps: one of them, and none is newer; None exactly when the filter
      keeps nothing. */
  function NewestMatching(ps: seq<Payment>, p: Payment -> bool): (r: Option<Payment>)
    ensures r.Some? ==> r.value in ps && p(r.value)
    ensures r.Some? ==> forall k :: 0 <= k < |ps| && p(ps[k]) ==> ps[k].createdAt <= r.value.createdAt
    ensures r.None? <==> forall k :: 0 <= k < |ps| ==> !p(ps[k])
  {
    var sorted := SortNewestFirst(Filter(ps, p));
    SortedHeadIsNewest(ps, p);
    if |sorted| == 0 then None else Some(sorted[0])
  }

  lemma SortedHeadIsNewest(ps: seq<Payment>, p: Payment -> bool)
    ensures var sorted := SortNewestFirst(Filter(ps, p));
      && (|sorted| > 0 ==> sorted[0] in ps && p(sorted[0]) &&
                           forall k :: 0 <= k < |ps| && p(ps[k]) ==> ps[k].createdAt <= sorted[0].createdAt)
      && (|sorted| == 0 <==> forall k :: 0 <= k < |ps| ==> !p(ps[k]))
  {
    var f := Filter(ps, p);
    var sorted := SortNewestFirst(f);
    if |sorted| > 0 {
      assert sorted[0] in multiset(f);
      forall k | 0 <= k < |ps| && p(ps[k])
        ensures ps[k].createdAt <= sorted[0].createdAt
      {
        assert ps[k] in f;
        assert ps[k] in multiset(sorted);
        var j :| 0 <= j < |sorted| && sorted[j] == ps[k];
        if j > 0 {
          assert NewerOrSame(sorted[0], sorted[j]);
        }
      }
    } else {
      assert |f| == |multiset(f)| == |multiset(sorted)| == 0;
    }
  }

  /** The user's payments in the order the endpoint lists them. */
  function UserPaymentsNewestFirst(t: Tables, userId: int): seq<Payment>
  {
    SortNewestFirst(Filter(t.payments, (p: Payment) => IsPaymentOf(p, userId)))
  }

  /** The row `payment.subscription` loads: the first subscription with that
      id, none exactly when no subscription has it. */
  function SubscriptionIndex(t: Tables, id: int): (r: Option<nat>)
    ensures r.Some? ==> r.value < |t.subscriptions| && t.subscriptions[r.value].id == id
    ensures r.Some? ==> forall k :: 0 <= k < r.value ==> t.subscriptions[k].id != id
    ensures r.None? <==> forall k :: 0 <= k < |t.subscriptions| ==> t.subscriptions[k].id != id
  {
    FirstIndex(t.subscriptions, (x: Subscription) => x.id == id)
  }

  /** `payment.subscription.plan.name`, when both links resolve: the name of
      the plan of the (first) subscription with the payment's subscription
      id, and none when the payment has no subscription, the subscription is
      not found or its plan is not. */
  function PlanNameOf(t: Tables, p: Payment): (r: Option<string>)
    ensures p.subscriptionId.None? ==> r.None?
    ensures p.subscriptionId.Some? && SubscriptionIndex(t, p.subscriptionId.value).None? ==> r.None?
    ensures p.subscriptionId.Some? && SubscriptionIndex(t, p.subscriptionId.value).Some? ==>
      var plan := FindPlan(t, t.subscriptions[SubscriptionIndex(t, p.subscriptionId.value).value].planId);
      && (plan.Some? ==> r == Some(plan.value.name))
      && (plan.None? ==> r.None?)
  {
    if p.subscriptionId.None? then None
    else
      match SubscriptionIndex(t, p.subscriptionId.value)
      case None => None
      case Some(i) =>
        match FindPlan(t, t.subscriptions[i].planId)
        case None => None
        case Some(plan) => Some(plan.name)
  }

  /** The method shown: the details' `method` entry when the details are a
      non-empty object, "Unknown" otherwise or when the entry is absent. */
  function MethodLabel(d: MethodDetails): (r: string)
    ensures !d.Details? ==> r == "Unknown"
    ensures d.Details? ==> r == DetailsGet(d.entries, "method", "Unknown")
  {
    match d
    case Details(es) => if |es| == 0 then "Unknown" else DetailsGet(es, "method", "Unknown")
    case _ => "Unknown"
  }

  /** One history entry: the payment's own columns, a plan name only for a
      payment on a subscription, and "Unknown" for details that are not an
      object. */
  function HistoryEntryOf(t: Tables, p: Payment): (r: HistoryEntry)
    ensures r.id == p.id && r.amount == p.amount && r.currency == p.currency && r.provider == p.provider
    ensures r.createdAt == p.createdAt
    ensures p.subscriptionId.None? ==> r.planName.None?
    ensures !p.methodDetails.Details? ==> r.paymentMethod == "Unknown"
    ensures r.status == PaymentStatusValue(p.status)
    ensures r.planName == PlanNameOf(t, p) && r.paymentMethod == MethodLabel(p.methodDetails)
  {
    HistoryEntry(p.id, p.amount, p.currency, PaymentStatusValue(p.status), p.provider, PlanNameOf(t, p),
                 MethodLabel(p.methodDetails), p.createdAt)
  }

  /** The endpoint: one entry per payment of the user, newest first, built in
      a loop. */
  method PaymentHistory(s: Session, userId: int) returns (history: seq<HistoryEntry>)
    ensures var ps := UserPaymentsNewestFirst(s.db, userId);
      |history| == |ps| && forall k :: 0 <= k < |ps| ==> history[k] == HistoryEntryOf(s.db, ps[k])
  {
    var payments := UserPaymentsNewestFirst(s.db, userId);
    history := [];
    for i := 0 to |payments|
      invariant |history| == i
      invariant forall k :: 0 <= k < i ==> history[k] == HistoryEntryOf(s.db, payments[k])
    {
      history := history + [HistoryEntryOf(s.db, payments[i])];
    }
  }

  /** The history lists exactly the user's payments, each once, newest first,
      and nobody else's. */
  lemma HistoryIsUsersPayments(t: Tables, userId: int)
    ensures var ps := UserPaymentsNewestFirst(t, userId);
      && NewestFirst(ps)
      && multiset(ps) == multiset(Filter(t.payments, (p: Payment) => IsPaymentOf(p, userId)))
      && (forall k :: 0 <= k < |ps| ==> ps[k].userId == userId && ps[k] in t.payments)
      && (forall k :: 0 <= k < |t.payments| && t.payments[k].userId == userId ==> t.payments[k] in ps)
  {
    var f := Filter(t.payments, (p: Payment) => IsPaymentOf(p, userId));
    var ps := UserPaymentsNewestFirst(t, userId);
    forall k | 0 <= k < |ps|
      ensures ps[k].userId == userId && ps[k] in t.payments
    {
      assert ps[k] in multiset(ps);
      assert ps[k] in multiset(f);
    }
    forall k | 0 <= k < |t.payments| && t.payments[k].userId == userId
      ensures t.payments[k] in ps
    {
      assert t.payments[k] in f;
      assert t.payments[k] in multiset(f);
    }
  }

  /** A payment recorded by verify shows the method "razorpay". */
  lemma VerifiedPaymentMethodLabel(id: int, userId: int, amount: real, currency: string, req: VerifyRequest,
                                   invoiceRef: Option<string>, now: Time)
    ensures MethodLabel(CompletedPayment(id, userId, amount, currency, req, invoiceRef, now).methodDetails) == "razorpay"
    ensures PaymentStatusValue(CompletedPayment(id, userId, amount, currency, req, invoiceRef, now).status) == "completed"
  {
  }

  // ---------------------------------------------------------------------
  // download_invoice (lines 382-436)
  // ---------------------------------------------------------------------

  datatype DownloadReply = DownloadReply(invoiceUrl: string, invoiceId: int)

  predicate IsInvoiceOf(i: Invoice, invoiceId: int, userId: int)
  {
    i.id == invoiceId && i.userId == userId
  }

  /** The lookup of lines 394-397: this invoice, and only if it is the
      caller's. */
  function OwnInvoiceIndex(t: Tables, invoiceId: int, userId: int): (r: Option<nat>)
    ensures r.Some? ==> r.value < |t.invoices| && IsInvoiceOf(t.invoices[r.value], invoiceId, userId)
    ensures r.None? <==> forall k :: 0 <= k < |t.invoices| ==> !IsInvoiceOf(t.invoices[k], invoiceId, userId)
  {
    FirstIndex(t.invoices, (i: Invoice) => IsInvoiceOf(i, invoiceId, userId))
  }

  /** The gateway invoice reference to fetch: the linked payment's, when it
      has one. */
  function GatewayInvoiceRef(t: Tables, inv: Invoice): Option<string>
  {
    match FindPayment(t, inv.paymentId)
    case Some(p) => if Truthy(p.razorpayInvoiceId) then p.razorpayInvoiceId else None
    case None => None
  }

  function DownloadSpec(t: Tables, userId: int, invoiceId: int, gw: Config, fetched: Call<InvoiceInfo>): (o: Outcome<DownloadReply>)
    ensures o.reply.Fail? ==> o.reply.status == 404 && o.tables == t
    ensures Consistent(t) ==> Consistent(o.tables)
  {
    match OwnInvoiceIndex(t, invoiceId, userId)
    case None => Outcome(Fail(404, InvoiceNotFound), t, [])
    case Some(ii) =>
      var inv := t.invoices[ii];
      if Truthy(inv.invoiceUrl) then Outcome(Ok(DownloadReply(inv.invoiceUrl.value, invoiceId)), t, [])
      else
        var ref := GatewayInvoiceRef(t, inv);
        if ref.None? || IsMock(gw) then Outcome(Fail(404, InvoiceUrlUnavailable), t, [])
        else
          var calls := [FetchInvoice(ref.value)];
          var url := if fetched.Returned? then OrElse(fetched.value.shortUrl, fetched.value.invoicePdf) else None;
          if !Truthy(url) then Outcome(Fail(404, InvoiceUrlUnavailable), t, calls)
          else
            var t' := t.(invoices := t.invoices[ii := inv.(invoiceUrl := url)]);
            if Consistent(t') then Outcome(Ok(DownloadReply(url.value, invoiceId)), t', calls)
            else Outcome(Fail(404, InvoiceUrlUnavailable), t, calls)
  }

  /** The endpoint on the request's session. A failed commit is swallowed by
      the handler and the request ends in the 404 fallback; closing the
      session then discards the change. */
  method DownloadInvoice(s: Session, userId: int, invoiceId: int, gw: Config, fetched: Call<InvoiceInfo>)
    returns (reply: Reply<DownloadReply, Cause>, calls: seq<Request>)
    requires s.Idle()
    modifies s
    ensures var o := DownloadSpec(old(s.db), userId, invoiceId, gw, fetched);
      reply == o.reply && calls == o.calls && s.db == o.tables && s.committed == o.tables
  {
    calls := [];
    var found := OwnInvoiceIndex(s.db, invoiceId, userId);
    if found.None? {
      return Fail(404, InvoiceNotFound), calls;
    }
    var ii := found.value;
    var inv := s.db.invoices[ii];
    if Truthy(inv.invoiceUrl) {
      return Ok(DownloadReply(inv.invoiceUrl.value, invoiceId)), calls;
    }
    var ref := GatewayInvoiceRef(s.db, inv);
    if ref.Some? && !IsMock(gw) {
      calls := [FetchInvoice(ref.value)];
      if fetched.Returned? {
        var url := OrElse(fetched.value.shortUrl, fetched.value.invoicePdf);
        if Truthy(url) {
          s.db := s.db.(invoices := s.db.invoices[ii := inv.(invoiceUrl := url)]);
          var ok := s.Commit();
          if ok {
            return Ok(DownloadReply(url.value, invoiceId)), calls;
          }
          s.Rollback();
        }
      }
    }
    reply := Fail(404, InvoiceUrlUnavailable);
  }

  /** Someone else's invoice, or a missing one, is 404 with no gateway
      call; a stored URL is returned without any gateway call or write. */
  lemma DownloadOwnOrCached(t: Tables, userId: int, invoiceId: int, gw: Config, fetched: Call<InvoiceInfo>)
    ensures var o := DownloadSpec(t, userId, invoiceId, gw, fetched);
      && ((forall k :: 0 <= k < |t.invoices| && t.invoices[k].id == invoiceId ==> t.invoices[k].userId != userId) ==>
            o == Outcome(Fail(404, InvoiceNotFound), t, []))
      && (OwnInvoiceIndex(t, invoiceId, userId).Some? && Truthy(t.invoices[OwnInvoiceIndex(t, invoiceId, userId).value].invoiceUrl) ==>
            o == Outcome(Ok(DownloadReply(t.invoices[OwnInvoiceIndex(t, invoiceId, userId).value].invoiceUrl.value, invoiceId)), t, []))
  {
  }

  /** A fetched URL is cached: once a download succeeded through the gateway,
      the next one returns the same URL with no gateway call and no write,
      whatever the gateway would answer. */
  lemma DownloadCachesUrl(t: Tables, userId: int, invoiceId: int, gw: Config, fetched: Call<InvoiceInfo>,
                          gw': Config, fetched': Call<InvoiceInfo>)
    requires DownloadSpec(t, userId, invoiceId, gw, fetched).reply.Ok?
    ensures var o := DownloadSpec(t, userId, invoiceId, gw, fetched);
      var o' := DownloadSpec(o.tables, userId, invoiceId, gw', fetched');
      o' == Outcome(o.reply, o.tables, [])
  {
    var o := DownloadSpec(t, userId, invoiceId, gw, fetched);
    var ii := OwnInvoiceIndex(t, invoiceId, userId).value;
    assert |o.tables.invoices| == |t.invoices|;
    forall k | 0 <= k < |t.invoices|
      ensures IsInvoiceOf(o.tables.invoices[k], invoiceId, userId) == IsInvoiceOf(t.invoices[k], invoiceId, userId)
    {
    }
    assert OwnInvoiceIndex(o.tables, invoiceId, userId) == Some(ii);
  }

  /** Downloading never calls the gateway in mock mode, and never changes
      anything but the requested invoice's URL. */
  lemma DownloadWritesOnlyUrl(t: Tables, userId: int, invoiceId: int, gw: Config, fetched: Call<InvoiceInfo>)
    ensures var o := DownloadSpec(t, userId, invoiceId, gw, fetched);
      && (IsMock(gw) ==> o.calls == [] && o.tables == t)
      && (o.tables == t || (
            var ii := OwnInvoiceIndex(t, invoiceId, userId).value;
            && OwnInvoiceIndex(t, invoiceId, userId).Some?
            && o.tables == t.(invoices := t.invoices[ii := t.invoices[ii].(invoiceUrl := o.tables.invoices[ii].invoiceUrl)])
            && Truthy(o.tables.invoices[ii].invoiceUrl)))
  {
  }
}
