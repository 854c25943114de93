/**
 * The ORM rows of the backend (plans, subscriptions, invoices, payments,
 * users, languages, code executions), their enums with the values stored in
 * the database, their column defaults, and the constraints the database
 * enforces when a transaction commits.
 */
module Models {
  import opened Common
  import Text

  /** Seconds since the epoch, as read from the clock parameter. */
  type Time = int

  const SecondsPerDay: int := 86400

  // ---- enums (aspy_backend/app/models/subscription.py, payment.py) ----

  datatype PlanType = FREE | PRO
  datatype SubscriptionStatus = ACTIVE | CANCELLED | EXPIRED | PAST_DUE
  datatype PaymentStatus = PENDING | COMPLETED | FAILED | REFUNDED
  datatype UserType = USER | ADMIN

  /** The value stored for each enum member. */
  function PlanTypeValue(t: PlanType): string
  {
    match t
    case FREE => "FREE"
    case PRO => "PRO"
  }

  function SubscriptionStatusValue(s: SubscriptionStatus): string
  {
    match s
    case ACTIVE => "ACTIVE"
    case CANCELLED => "CANCELLED"
    case EXPIRED => "EXPIRED"
    case PAST_DUE => "PAST_DUE"
  }

  function PaymentStatusValue(s: PaymentStatus): string
  {
    match s
    case PENDING => "pending"
    case COMPLETED => "completed"
    case FAILED => "failed"
    case REFUNDED => "refunded"
  }

  function UserTypeValue(u: UserType): string
  {
    match u
    case USER => "USER"
    case ADMIN => "ADMIN"
  }

  // ---- plan features: an already-parsed JSON column ----

  datatype FeatureValue = FBool(b: bool) | FInt(i: int) | FText(s: string) | FNull

  /** The `features` column: a JSON object (keys in order), nothing (NULL), or
      something that does not read as an object (bad JSON text, a list, ...). */
  datatype Features = Mapping(entries: seq<(string, FeatureValue)>) | Missing | Unreadable

  // ---- rows ----

  datatype Plan = Plan(
    id: int,
    name: string,
    planType: Option<PlanType>,
    price: int,                      // minor units (paise)
    currency: string,
    features: Features,
    razorpayPlanId: Option<string>)

  datatype Card = Card(
    last4: Option<string>,
    brand: Option<string>,
    expMonth: Option<int>,
    expYear: Option<int>)

  const NoCard := Card(None, None, None, None)

  datatype Subscription = Subscription(
    id: int,
    userId: int,
    planId: int,
    status: SubscriptionStatus,
    razorpaySubscriptionId: Option<string>,
    card: Card,
    periodStart: Option<Time>,
    periodEnd: Option<Time>,
    cancelAtPeriodEnd: bool,
    cancelledAt: Option<Time>,
    createdAt: Time)

  /** A subscription row as inserted by the code, with the column defaults
      for everything it does not set: no card, not flagged, never cancelled. */
  function NewSubscription(id: int, userId: int, planId: int, status: SubscriptionStatus,
                           ref: Option<string>, start: Option<Time>, end: Option<Time>, now: Time): Subscription
  {
    Subscription(id, userId, planId, status, ref, NoCard, start, end, false, None, now)
  }

  datatype Invoice = Invoice(
    id: int,
    userId: int,
    subscriptionId: Option<int>,
    paymentId: Option<int>,
    amount: real,                    // major units, Numeric(10, 2)
    currency: string,
    status: string,                  // free text: "pending" or "paid"
    razorpayOrderId: Option<string>,
    invoiceUrl: Option<string>,
    planId: Option<int>,
    createdAt: Time,
    paidAt: Option<Time>)

  /** `payment_method_details`: a JSON object of strings, NULL, or some other
      JSON value. */
  datatype MethodDetails = NoDetails | Details(entries: seq<(string, string)>) | NotAnObject

  datatype Payment = Payment(
    id: int,
    userId: int,
    subscriptionId: Option<int>,
    amount: real,                    // major units, Numeric(10, 2)
    currency: string,
    status: PaymentStatus,
    provider: string,
    providerPaymentId: Option<string>,
    providerOrderId: Option<string>,
    razorpayInvoiceId: Option<string>,
    methodDetails: MethodDetails,
    createdAt: Time,
    completedAt: Option<Time>)

  datatype User = User(
    id: int,
    username: string,
    email: string,
    password: string,                // the stored hash
    isActive: bool,
    isSuperuser: bool,
    userType: UserType,
    razorpayCustomerId: Option<string>,
    createdAt: Time)

  datatype Language = Language(id: int, name: string, slug: string)

  datatype CodeExecution = CodeExecution(
    id: int,
    userId: int,
    language: string,
    languageId: Option<int>,
    code: string,
    output: string,
    createdAt: Time)

  /** The whole database: one sequence per table in row order, and the next
      value of the id sequence. */
  datatype Tables = Tables(
    users: seq<User>,
    plans: seq<Plan>,
    subscriptions: seq<Subscription>,
    invoices: seq<Invoice>,
    payments: seq<Payment>,
    languages: seq<Language>,
    executions: seq<CodeExecution>,
    nextId: int)

  // ---- column defaults ----

  const DefaultCurrency := "USD"
  const DefaultProvider := "razorpay"
  const DefaultPaymentStatus := PENDING
  const DefaultInvoiceStatus := "pending"
  const DefaultSubscriptionStatus := ACTIVE

  // ---- constraints checked when a transaction is flushed ----

  /** A VARCHAR(n) column accepts the value. */
  predicate FitsWidth(o: Option<string>, n: nat)
  {
    o.None? || |o.value| <= n
  }

  /** A Numeric(10, 2) column stores the value exactly: at most two decimals
      and at most eight digits before the point. */
  predicate FitsNumeric10_2(x: real)
  {
    (x * 100.0).Floor as real == x * 100.0 && -100000000.0 < x < 100000000.0
  }

  predicate UniquePlanNames(ps: seq<Plan>)
  {
    forall i, j :: 0 <= i < j < |ps| ==> ps[i].name != ps[j].name
  }

  predicate UniquePlanTypes(ps: seq<Plan>)
  {
    forall i, j :: 0 <= i < j < |ps| && ps[i].planType.Some? ==> ps[i].planType != ps[j].planType
  }

  predicate UniqueSubscriptionRefs(ss: seq<Subscription>)
  {
    forall i, j :: 0 <= i < j < |ss| && ss[i].razorpaySubscriptionId.Some? ==>
      ss[i].razorpaySubscriptionId != ss[j].razorpaySubscriptionId
  }

  predicate CardColumnsFit(ss: seq<Subscription>)
  {
    forall i :: 0 <= i < |ss| ==> FitsWidth(ss[i].card.last4, 4) && FitsWidth(ss[i].card.brand, 50)
  }

  predicate UniqueProviderPaymentIds(ps: seq<Payment>)
  {
    forall i, j :: 0 <= i < j < |ps| && ps[i].providerPaymentId.Some? ==>
      ps[i].providerPaymentId != ps[j].providerPaymentId
  }

  predicate PaymentAmountsFit(ps: seq<Payment>)
  {
    forall i :: 0 <= i < |ps| ==> FitsNumeric10_2(ps[i].amount)
  }

  predicate InvoiceColumnsFit(vs: seq<Invoice>)
  {
    forall i :: 0 <= i < |vs| ==> FitsWidth(vs[i].invoiceUrl, 500) && FitsNumeric10_2(vs[i].amount)
  }

  /** Every constraint of the schema holds; a commit of any other state raises. */
  predicate Consistent(t: Tables)
  {
    && UniquePlanNames(t.plans)
    && UniquePlanTypes(t.plans)
    && UniqueSubscriptionRefs(t.subscriptions)
    && CardColumnsFit(t.subscriptions)
    && UniqueProviderPaymentIds(t.payments)
    && PaymentAmountsFit(t.payments)
    && InvoiceColumnsFit(t.invoices)
  }

  /** Because `Plan.type` is unique, a consistent database has at most one plan
      of each type, so "the FREE plan" is well defined. */
  lemma {:induction false} AtMostOnePlanPerType(ps: seq<Plan>, ty: PlanType)
    requires UniquePlanTypes(ps)
    ensures Count(ps, (p: Plan) => p.planType == Some(ty)) <= 1
  {
    if |ps| > 0 {
      AtMostOnePlanPerType(ps[1..], ty);
      if ps[0].planType == Some(ty) {
        forall k | 0 <= k < |ps[1..]|
          ensures ps[1..][k].planType != Some(ty)
        {
          assert ps[1..][k] == ps[k + 1];
        }
        FilterNone(ps[1..], (p: Plan) => p.planType == Some(ty));
      }
    }
  }

  /** Likewise `Plan.name` is unique: at most one plan carries a given name. */
  lemma {:induction false} AtMostOnePlanPerName(ps: seq<Plan>, name: string)
    requires UniquePlanNames(ps)
    ensures Count(ps, (p: Plan) => p.name == name) <= 1
  {
    if |ps| > 0 {
      AtMostOnePlanPerName(ps[1..], name);
      if ps[0].name == name {
        forall k | 0 <= k < |ps[1..]|
          ensures ps[1..][k].name != name
        {
          assert ps[1..][k] == ps[k + 1];
        }
        FilterNone(ps[1..], (p: Plan) => p.name == name);
      }
    }
  }

  function ActiveOfUser(userId: int): Subscription -> bool { (s: Subscription) => IsActiveOf(s, userId) }

  /** `user_id` is not unique: any consistent database stays consistent when
      a subscription without a gateway reference or card is added, whoever
      it belongs to, so a user can hold several subscriptions, even several
      ACTIVE ones. */
  lemma SeveralSubscriptionsPerUser(t: Tables, a: Subscription)
    requires Consistent(t)
    requires a.razorpaySubscriptionId == None && a.card == NoCard
    ensures Consistent(t.(subscriptions := t.subscriptions + [a]))
    ensures a.status == ACTIVE ==>
      Count(t.subscriptions + [a], ActiveOfUser(a.userId)) == Count(t.subscriptions, ActiveOfUser(a.userId)) + 1
  {
    CountAppend(t.subscriptions, [a], ActiveOfUser(a.userId));
    assert [a][1..] == [];
  }

  // ---- lookups shared by the endpoints ----

  function FindPlan(t: Tables, id: int): Option<Plan>
  {
    First(t.plans, (p: Plan) => p.id == id)
  }

  /** `Plan.id == x` with `x` possibly NULL: NULL matches no row. */
  function FindPlanOpt(t: Tables, id: Option<int>): (r: Option<Plan>)
    ensures id.None? ==> r.None?
  {
    if id.None? then None else FindPlan(t, id.value)
  }

  function FindPayment(t: Tables, id: Option<int>): Option<Payment>
  {
    if id.None? then None else First(t.payments, (p: Payment) => p.id == id.value)
  }

  predicate IsActiveOf(s: Subscription, userId: int)
  {
    s.userId == userId && s.status == ACTIVE
  }

  /** The row of "the ACTIVE subscription of the user" (the first such row). */
  function ActiveSubscriptionIndex(t: Tables, userId: int): (r: Option<nat>)
    ensures r.Some? ==> r.value < |t.subscriptions| && IsActiveOf(t.subscriptions[r.value], userId)
    ensures r.None? <==> forall k :: 0 <= k < |t.subscriptions| ==> !IsActiveOf(t.subscriptions[k], userId)
  {
    FirstIndex(t.subscriptions, (s: Subscription) => IsActiveOf(s, userId))
  }

  function ActiveSubscription(t: Tables, userId: int): Option<Subscription>
  {
    match ActiveSubscriptionIndex(t, userId)
    case None => None
    case Some(i) => Some(t.subscriptions[i])
  }

  /** `dict.get(key, default)` on a JSON object of strings. */
  function DetailsGet(entries: seq<(string, string)>, key: string, default: string): string
  {
    if |entries| == 0 then default
    else if entries[0].0 == key then entries[0].1
    else DetailsGet(entries[1..], key, default)
  }
}
