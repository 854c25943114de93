/**
 * The administration endpoints (aspy_backend/app/api/v1/admin.py): the
 * admin gate every one of them passes first, the dashboard figures, the
 * user and subscription lists, adding and removing languages, and
 * activating, deactivating and deleting users, which never touch an admin.
 */
module Admin {
  import opened Common
  import opened Models
  import opened Store
  import opened Payments
  import Text
  import Auth

  datatype AdminCause =
    | NotAdmin
    | InvalidQuery
    | LanguageExists
    | LanguageNotFound
    | UserNotFound
    | AdminProtected
    | CommitFailed

  /** `get_current_admin_user` (lines 19-25). */
  function AdminGate(caller: User): (r: Reply<User, AdminCause>)
    ensures r.Ok? <==> caller.userType == ADMIN
    ensures r.Fail? ==> r == Fail(403, NotAdmin)
  {
    if caller.userType != ADMIN then Fail(403, NotAdmin) else Ok(caller)
  }

  // ---------------------------------------------------------------------
  // get_admin_dashboard_stats (lines 78-103)
  // ---------------------------------------------------------------------

  datatype DashboardStats = DashboardStats(
    totalUsers: nat,
    totalAdmins: nat,
    activeSubscriptions: nat,
    totalRevenue: real,
    totalExecutions: nat,
    totalLanguages: nat)

  predicate IsPlainUser(u: User) { u.userType == USER }
  predicate IsAdmin(u: User) { u.userType == ADMIN }
  predicate IsActiveSubscription(s: Subscription) { s.status == ACTIVE }
  predicate IsCompleted(p: Payment) { p.status == COMPLETED }

  function SumAmounts(ps: seq<Payment>): real
  {
    if |ps| == 0 then 0.0 else ps[0].amount + SumAmounts(ps[1..])
  }

  lemma {:induction false} SumAppend(a: seq<Payment>, b: seq<Payment>)
    ensures SumAmounts(a + b) == SumAmounts(a) + SumAmounts(b)
  {
    if |a| == 0 {
      assert a + b == b;
    } else {
      assert (a + b)[1..] == a[1..] + b;
      SumAppend(a[1..], b);
    }
  }

  /** `SUM(amount)` over COMPLETED payments, which is NULL, read as 0.0,
      when there are none. */
  function Revenue(t: Tables): real
  {
    var completed := Filter(t.payments, IsCompleted);
    if |completed| == 0 then 0.0 else SumAmounts(completed)
  }

  /** The dashboard figures: the USER rows, the ADMIN rows and the ACTIVE
      subscriptions counted (each bounded by its table), the revenue, and the
      sizes of the executions and languages tables. */
  function StatsOf(t: Tables): (r: DashboardStats)
    ensures r.totalUsers <= |t.users| && r.totalAdmins <= |t.users|
    ensures r.activeSubscriptions <= |t.subscriptions|
    ensures r.totalExecutions == |t.executions| && r.totalLanguages == |t.languages|
  {
    DashboardStats(Count(t.users, IsPlainUser), Count(t.users, IsAdmin), Count(t.subscriptions, IsActiveSubscription),
                   Revenue(t), |t.executions|, |t.languages|)
  }

  function AdminStats(t: Tables, caller: User): Reply<DashboardStats, AdminCause>
  {
    match AdminGate(caller)
    case Fail(status, cause) => Fail(status, cause)
    case Ok(_) => Ok(StatsOf(t))
  }

  /** Revenue is 0.0 when nothing has been paid. */
  lemma NoCompletedPaymentNoRevenue(t: Tables)
    requires forall k :: 0 <= k < |t.payments| ==> t.payments[k].status != COMPLETED
    ensures StatsOf(t).totalRevenue == 0.0
  {
    FilterNone(t.payments, IsCompleted);
  }

  /** Each count figure counts its own rows: it is zero exactly when no row
      qualifies and the table size exactly when every row does. */
  lemma StatsCountMeaning(t: Tables)
    ensures var r := StatsOf(t);
      && (r.totalUsers == 0 <==> forall k :: 0 <= k < |t.users| ==> t.users[k].userType != USER)
      && (r.totalUsers == |t.users| <==> forall k :: 0 <= k < |t.users| ==> t.users[k].userType == USER)
      && (r.totalAdmins == 0 <==> forall k :: 0 <= k < |t.users| ==> t.users[k].userType != ADMIN)
      && (r.totalAdmins == |t.users| <==> forall k :: 0 <= k < |t.users| ==> t.users[k].userType == ADMIN)
      && (r.activeSubscriptions == 0 <==> forall k :: 0 <= k < |t.subscriptions| ==> t.subscriptions[k].status != ACTIVE)
      && (r.activeSubscriptions == |t.subscriptions| <==>
            forall k :: 0 <= k < |t.subscriptions| ==> t.subscriptions[k].status == ACTIVE)
  {
    CountNoneIff(t.users, IsPlainUser);
    CountAllIff(t.users, IsPlainUser);
    CountNoneIff(t.users, IsAdmin);
    CountAllIff(t.users, IsAdmin);
    CountNoneIff(t.subscriptions, IsActiveSubscription);
    CountAllIff(t.subscriptions, IsActiveSubscription);
  }

  /** Users and admins are counted apart and together make up every user. */
  lemma {:induction false} UsersAndAdminsPartition(us: seq<User>)
    ensures Count(us, IsPlainUser) + Count(us, IsAdmin) == |us|
  {
    if |us| > 0 {
      UsersAndAdminsPartition(us[1..]);
    }
  }

  lemma StatsPartitionUsers(t: Tables)
    ensures StatsOf(t).totalUsers + StatsOf(t).totalAdmins == |t.users|
  {
    UsersAndAdminsPartition(t.users);
  }

  /** A new user row adds one to the figure of its own type and to no other
      figure. */
  lemma StatsAfterNewUser(t: Tables, u: User)
    ensures var r := StatsOf(t.(users := t.users + [u]));
      && r.totalUsers == StatsOf(t).totalUsers + (if u.userType == USER then 1 else 0)
      && r.totalAdmins == StatsOf(t).totalAdmins + (if u.userType == ADMIN then 1 else 0)
      && r.(totalUsers := StatsOf(t).totalUsers, totalAdmins := StatsOf(t).totalAdmins) == StatsOf(t)
  {
    CountAppend(t.users, [u], IsPlainUser);
    CountAppend(t.users, [u], IsAdmin);
    assert [u][1..] == [];
  }

  /** Registering an account adds one to `total_users`, nothing to
      `total_admins`, and one ACTIVE subscription exactly when a FREE plan
      exists. */
  lemma StatsAfterCreateAccount(t: Tables, username: string, email: string, passwordHash: string, now: Time)
    ensures var r := Auth.CreateAccount(t, username, email, passwordHash, now);
      r.reply.Ok? ==>
        && StatsOf(r.tables).totalUsers == StatsOf(t).totalUsers + 1
        && StatsOf(r.tables).totalAdmins == StatsOf(t).totalAdmins
        && StatsOf(r.tables).activeSubscriptions
             == StatsOf(t).activeSubscriptions + (if First(t.plans, Auth.IsFreePlan).Some? then 1 else 0)
  {
    var r := Auth.CreateAccount(t, username, email, passwordHash, now);
    Auth.CreateAccountAddsUser(t, username, email, passwordHash, now);
    if r.reply.Ok? {
      var u := r.reply.value;
      CountAppend(t.users, [u], IsPlainUser);
      CountAppend(t.users, [u], IsAdmin);
      assert [u][1..] == [];
      if First(t.plans, Auth.IsFreePlan).Some? {
        var subs := r.tables.subscriptions;
        var sub := subs[|t.subscriptions|];
        assert subs == t.subscriptions + [sub];
        CountAppend(t.subscriptions, [sub], IsActiveSubscription);
        assert [sub][1..] == [];
      }
    }
  }

  /** A new payment adds its amount to the revenue exactly when it is
      COMPLETED. */
  lemma {:induction false} RevenueAfterPayment(t: Tables, p: Payment)
    ensures Revenue(t.(payments := t.payments + [p])) == Revenue(t) + (if p.status == COMPLETED then p.amount else 0.0)
  {
    FilterAppend(t.payments, [p], IsCompleted);
    SumAppend(Filter(t.payments, IsCompleted), Filter([p], IsCompleted));
    assert [p][1..] == [];
  }

  /** A successful verify grows the dashboard revenue by exactly the amount
      it reports. */
  lemma VerifyAddsRevenue(t: Tables, userId: int, req: VerifyRequest, gw: Gateway.Config, now: Time,
                          sig: Gateway.SignatureCheck, fetched: Call<Gateway.PaymentInfo>, invoiceData: Call<Gateway.InvoiceInfo>)
    requires VerifySpec(t, userId, req, gw, now, sig, fetched, invoiceData).reply.Ok?
    ensures var o := VerifySpec(t, userId, req, gw, now, sig, fetched, invoiceData);
      Revenue(o.tables) == Revenue(t) + o.reply.value.amount
  {
    VerifyAppendsPayment(t, userId, req, gw, now, sig, fetched, invoiceData);
    var o := VerifySpec(t, userId, req, gw, now, sig, fetched, invoiceData);
    RevenueAfterCompleted(t, o.tables, o.tables.payments[|t.payments|]);
  }

  lemma RevenueAfterCompleted(t: Tables, t': Tables, p: Payment)
    requires t'.payments == t.payments + [p] && p.status == COMPLETED
    ensures Revenue(t') == Revenue(t) + p.amount
  {
    RevenueAfterPayment(t, p);
    assert t'.payments == t.(payments := t.payments + [p]).payments;
  }

  // ---------------------------------------------------------------------
  // get_all_users (lines 105-157)
  // ---------------------------------------------------------------------

  datatype UserRow = UserRow(
    id: int,
    username: string,
    email: string,
    userType: string,
    isActive: bool,
    createdAt: Time,
    subscriptionStatus: Option<string>,
    subscriptionPlan: Option<string>,
    executionCount: nat,
    certificateCount: nat)

  /** `username ILIKE %term% OR email ILIKE %term%`, as a case-insensitive
      substring test. */
  predicate MatchesSearch(u: User, term: string)
  {
    Text.Contains(Text.Lower(u.username), Text.Lower(term)) || Text.Contains(Text.Lower(u.email), Text.Lower(term))
  }

  /** `.offset(skip).limit(limit)`. */
  function Page<T>(s: seq<T>, skip: nat, limit: nat): (r: seq<T>)
    ensures |r| <= limit
    ensures skip >= |s| ==> r == []
    ensures skip < |s| ==> r == s[skip..if skip + limit <= |s| then skip + limit else |s|]
  {
    if skip >= |s| then [] else s[skip..if skip + limit <= |s| then skip + limit else |s|]
  }

  /** The users the query returns: USER type, filtered by a non-empty search
      term, then paged. */
  function ListedUsers(t: Tables, search: Option<string>, skip: nat, limit: nat): seq<User>
  {
    var plain := Filter(t.users, IsPlainUser);
    var found := if Truthy(search) then Filter(plain, (u: User) => MatchesSearch(u, search.value)) else plain;
    Page(found, skip, limit)
  }

  predicate IsExecutionOf(e: CodeExecution, userId: int) { e.userId == userId }

  /** The row for one user: the ACTIVE subscription's status and plan name,
      when there is one, and the user's number of executions. */
  function UserRowOf(t: Tables, u: User): UserRow
  {
    var active := ActiveSubscription(t, u.id);
    var plan := if active.Some? then FindPlan(t, active.value.planId) else None;
    UserRow(u.id, u.username, u.email, UserTypeValue(u.userType), u.isActive, u.createdAt,
            if active.Some? then Some(SubscriptionStatusValue(active.value.status)) else None,
            if plan.Some? then Some(plan.value.name) else None,
            Count(t.executions, (e: CodeExecution) => IsExecutionOf(e, u.id)), 0)
  }

  predicate ValidPage(skip: int, limit: int)
  {
    skip >= 0 && 1 <= limit <= 1000
  }

  /** The endpoint: builds one row per listed user in a loop. */
  method GetAllUsers(s: Session, caller: User, search: Option<string>, skip: int, limit: int)
    returns (reply: Reply<seq<UserRow>, AdminCause>)
    ensures caller.userType != ADMIN ==> reply == Fail(403, NotAdmin)
    ensures caller.userType == ADMIN && !ValidPage(skip, limit) ==> reply == Fail(422, InvalidQuery)
    ensures reply.Ok? <==> caller.userType == ADMIN && ValidPage(skip, limit)
    ensures reply.Ok? ==> RowsFor(s.db, reply.value, ListedUsers(s.db, search, skip, limit))
  {
    var gate := AdminGate(caller);
    if gate.Fail? {
      return Fail(gate.status, gate.cause);
    }
    if !ValidPage(skip, limit) {
      return Fail(422, InvalidQuery);
    }
    var rows := UserRows(s.db, ListedUsers(s.db, search, skip, limit));
    reply := Ok(rows);
  }

  /** Lines 128-155: the loop building one row per listed user. */
  method UserRows(t: Tables, users: seq<User>) returns (rows: seq<UserRow>)
    ensures RowsFor(t, rows, users)
  {
    rows := [];
    for i := 0 to |users|
      invariant RowsFor(t, rows, users[..i])
    {
      assert users[..i + 1] == users[..i] + [users[i]];
      rows := rows + [UserRowOf(t, users[i])];
    }
    assert users[..|users|] == users;
  }

  /** One row per user, in the same order, each that user's row. */
  predicate RowsFor(t: Tables, rows: seq<UserRow>, users: seq<User>)
  {
    |rows| == |users| && forall k :: 0 <= k < |users| ==> rows[k] == UserRowOf(t, users[k])
  }

  /** Only USER-type users are listed, each matching a non-empty search term,
      at most `limit` of them, and they are the matching users from position
      `skip` on, in table order. */
  lemma ListedUsersShape(t: Tables, search: Option<string>, skip: nat, limit: nat)
    ensures var us := ListedUsers(t, search, skip, limit);
      && |us| <= limit
      && (forall k :: 0 <= k < |us| ==> us[k] in t.users && us[k].userType == USER)
      && (Truthy(search) ==> forall k :: 0 <= k < |us| ==> MatchesSearch(us[k], search.value))
      && (!Truthy(search) && skip == 0 && Count(t.users, IsPlainUser) <= limit ==> us == Filter(t.users, IsPlainUser))
  {
    var plain := Filter(t.users, IsPlainUser);
    if Truthy(search) {
      var found := Filter(plain, (u: User) => MatchesSearch(u, search.value));
      PageWithin(found, skip, limit);
    } else {
      PageWithin(plain, skip, limit);
      if skip == 0 && |plain| <= limit {
        assert plain[0..|plain|] == plain;
      }
    }
  }

  /** Every row of a page is a row of the query it pages. */
  lemma PageWithin<T>(s: seq<T>, skip: nat, limit: nat)
    ensures forall k :: 0 <= k < |Page(s, skip, limit)| ==> Page(s, skip, limit)[k] in s
  {
    var r := Page(s, skip, limit);
    forall k | 0 <= k < |r|
      ensures r[k] in s
    {
      assert r[k] == s[skip + k];
    }
  }

  /** A user's row reports the ACTIVE subscription exactly when there is one
      and counts every execution of the user. */
  lemma UserRowReportsActiveSubscription(t: Tables, u: User)
    ensures var row := UserRowOf(t, u);
      && (row.subscriptionStatus.Some? <==> exists k :: 0 <= k < |t.subscriptions| && IsActiveOf(t.subscriptions[k], u.id))
      && (row.subscriptionStatus.Some? ==> row.subscriptionStatus == Some("ACTIVE"))
      && (row.subscriptionPlan.Some? ==> row.subscriptionStatus.Some?)
      && row.certificateCount == 0
  {
  }

  // ---------------------------------------------------------------------
  // get_all_subscriptions (lines 159-190)
  // ---------------------------------------------------------------------

  datatype SubscriptionRow = SubscriptionRow(
    id: int,
    userEmail: string,
    planName: string,
    status: string,
    amountPaid: real,
    nextDueDate: Option<Time>,
    createdAt: Time,
    periodEnd: Option<Time>)

  predicate IsCompletedPaymentOf(p: Payment, userId: int)
  {
    p.userId == userId && p.status == COMPLETED
  }

  /** The amount of the user's newest COMPLETED payment, whatever
      subscription it paid for; 0.0 when there is none. */
  function AmountPaid(t: Tables, userId: int): real
  {
    match NewestMatching(t.payments, CompletedOf(userId))
    case None => 0.0
    case Some(p) => p.amount
  }

  /** The filter `user_id == ..., status == COMPLETED`. */
  function CompletedOf(userId: int): (q: Payment -> bool)
    ensures forall p :: q(p) == IsCompletedPaymentOf(p, userId)
  {
    (p: Payment) => IsCompletedPaymentOf(p, userId)
  }

  function SubscriptionRowOf(t: Tables, sub: Subscription): SubscriptionRow
  {
    var owner := First(t.users, (u: User) => u.id == sub.userId);
    var plan := FindPlan(t, sub.planId);
    SubscriptionRow(sub.id, if owner.Some? then owner.value.email else "N/A",
                    if plan.Some? then plan.value.name else "N/A",
                    SubscriptionStatusValue(sub.status), AmountPaid(t, sub.userId),
                    sub.periodEnd, sub.createdAt, sub.periodEnd)
  }

  method GetAllSubscriptions(s: Session, caller: User, skip: int, limit: int)
    returns (reply: Reply<seq<SubscriptionRow>, AdminCause>)
    ensures caller.userType != ADMIN ==> reply == Fail(403, NotAdmin)
    ensures reply.Ok? <==> caller.userType == ADMIN && ValidPage(skip, limit)
    ensures reply.Ok? ==> SubscriptionRowsFor(s.db, reply.value, Page(s.db.subscriptions, skip, limit))
  {
    var gate := AdminGate(caller);
    if gate.Fail? {
      return Fail(gate.status, gate.cause);
    }
    if !ValidPage(skip, limit) {
      return Fail(422, InvalidQuery);
    }
    var rows := SubscriptionRows(s.db, Page(s.db.subscriptions, skip, limit));
    reply := Ok(rows);
  }

  /** One row per subscription, in the same order, each that
      subscription's row. */
  predicate SubscriptionRowsFor(t: Tables, rows: seq<SubscriptionRow>, subs: seq<Subscription>)
  {
    |rows| == |subs| && forall k :: 0 <= k < |subs| ==> rows[k] == SubscriptionRowOf(t, subs[k])
  }

  /** Lines 169-188: the loop building one row per subscription of the page. */
  method SubscriptionRows(t: Tables, subs: seq<Subscription>) returns (rows: seq<SubscriptionRow>)
    ensures SubscriptionRowsFor(t, rows, subs)
  {
    rows := [];
    for i := 0 to |subs|
      invariant SubscriptionRowsFor(t, rows, subs[..i])
    {
      assert subs[..i + 1] == subs[..i] + [subs[i]];
      rows := rows + [SubscriptionRowOf(t, subs[i])];
    }
    assert subs[..|subs|] == subs;
  }

  /** `amount_paid` is the amount of a COMPLETED payment of the
      subscription's user that no other such payment is newer than, and 0.0
      when the user has none. */
  lemma AmountPaidIsNewest(t: Tables, userId: int)
    ensures (forall k :: 0 <= k < |t.payments| ==> !IsCompletedPaymentOf(t.payments[k], userId)) ==> AmountPaid(t, userId) == 0.0
    ensures (exists k :: 0 <= k < |t.payments| && IsCompletedPaymentOf(t.payments[k], userId)) ==>
      exists j :: 0 <= j < |t.payments| && IsCompletedPaymentOf(t.payments[j], userId)
        && AmountPaid(t, userId) == t.payments[j].amount
        && forall k :: 0 <= k < |t.payments| && IsCompletedPaymentOf(t.payments[k], userId) ==>
             t.payments[k].createdAt <= t.payments[j].createdAt
  {
    var q := CompletedOf(userId);
    var r := NewestMatching(t.payments, q);
    if r.Some? {
      var j :| 0 <= j < |t.payments| && t.payments[j] == r.value;
      assert AmountPaid(t, userId) == t.payments[j].amount;
      assert forall k :: 0 <= k < |t.payments| && IsCompletedPaymentOf(t.payments[k], userId) ==>
        t.payments[k].createdAt <= t.payments[j].createdAt;
    } else {
      assert forall k :: 0 <= k < |t.payments| ==> !IsCompletedPaymentOf(t.payments[k], userId);
    }
  }

  // ---------------------------------------------------------------------
  // create_language, delete_language (lines 201-251)
  // ---------------------------------------------------------------------

  predicate Clashes(l: Language, name: string, slug: string)
  {
    l.name == name || l.slug == slug
  }

  function CreateLanguageSpec(t: Tables, caller: User, name: string, slug: string): (r: Response<Language, AdminCause>)
    ensures r.reply.Fail? ==> r.tables == t
  {
    if caller.userType != ADMIN then Response(Fail(403, NotAdmin), t)
    else if First(t.languages, (l: Language) => Clashes(l, name, slug)).Some? then Response(Fail(400, LanguageExists), t)
    else
      var l := Language(t.nextId, name, slug);
      var t' := t.(languages := t.languages + [l], nextId := t.nextId + 1);
      if Consistent(t') then Response(Ok(l), t') else Response(Fail(500, AdminCause.CommitFailed), t)
  }

  method CreateLanguage(s: Session, caller: User, name: string, slug: string) returns (reply: Reply<Language, AdminCause>)
    requires s.Idle()
    modifies s
    ensures var r := CreateLanguageSpec(old(s.db), caller, name, slug);
      reply == r.reply && s.db == r.tables && s.committed == r.tables
  {
    if caller.userType != ADMIN {
      return Fail(403, NotAdmin);
    }
    if First(s.db.languages, (l: Language) => Clashes(l, name, slug)).Some? {
      return Fail(400, LanguageExists);
    }
    var l := Language(s.db.nextId, name, slug);
    s.db := s.db.(languages := s.db.languages + [l], nextId := s.db.nextId + 1);
    var ok := s.Commit();
    if !ok {
      s.Rollback();
      return Fail(500, AdminCause.CommitFailed);
    }
    reply := Ok(l);
  }

  /** An admin's request is refused with 400 exactly when some language has
      the name or the slug; on a consistent database any other request adds
      exactly one language, with that name and slug, and changes nothing
      else. Repeating it is then refused. */
  lemma CreateLanguageOnce(t: Tables, caller: User, name: string, slug: string)
    requires caller.userType == ADMIN
    ensures var r := CreateLanguageSpec(t, caller, name, slug);
      && (r.reply == Fail(400, LanguageExists) <==>
            exists k :: 0 <= k < |t.languages| && (t.languages[k].name == name || t.languages[k].slug == slug))
      && (r.reply.Ok? ==> r.tables == t.(languages := t.languages + [r.reply.value], nextId := t.nextId + 1)
                          && r.reply.value.name == name && r.reply.value.slug == slug)
      && (Consistent(t) && r.reply.Fail? ==> r.reply == Fail(400, LanguageExists))
      && (r.reply.Ok? ==> CreateLanguageSpec(r.tables, caller, name, slug) == Response(Fail(400, LanguageExists), r.tables))
  {
    var r := CreateLanguageSpec(t, caller, name, slug);
    if r.reply.Ok? {
      assert Clashes(r.tables.languages[|t.languages|], name, slug);
    }
  }

  function DeleteLanguageSpec(t: Tables, caller: User, languageId: int): (r: Response<(), AdminCause>)
    ensures r.reply.Fail? ==> r.tables == t
  {
    if caller.userType != ADMIN then Response(Fail(403, NotAdmin), t)
    else
      match FirstIndex(t.languages, (l: Language) => l.id == languageId)
      case None => Response(Fail(404, LanguageNotFound), t)
      case Some(k) =>
        var t' := t.(languages := RemoveAt(t.languages, k));
        if Consistent(t') then Response(Ok(()), t') else Response(Fail(500, AdminCause.CommitFailed), t)
  }

  method DeleteLanguage(s: Session, caller: User, languageId: int) returns (reply: Reply<(), AdminCause>)
    requires s.Idle()
    modifies s
    ensures var r := DeleteLanguageSpec(old(s.db), caller, languageId);
      reply == r.reply && s.db == r.tables && s.committed == r.tables
  {
    if caller.userType != ADMIN {
      return Fail(403, NotAdmin);
    }
    var found := FirstIndex(s.db.languages, (l: Language) => l.id == languageId);
    if found.None? {
      return Fail(404, LanguageNotFound);
    }
    s.db := s.db.(languages := RemoveAt(s.db.languages, found.value));
    var ok := s.Commit();
    if !ok {
      s.Rollback();
      return Fail(500, AdminCause.CommitFailed);
    }
    reply := Ok(());
  }

  /** A missing language is 404; otherwise exactly that row goes. */
  lemma DeleteLanguageRemovesOne(t: Tables, caller: User, languageId: int)
    requires caller.userType == ADMIN
    ensures var r := DeleteLanguageSpec(t, caller, languageId);
      && ((forall k :: 0 <= k < |t.languages| ==> t.languages[k].id != languageId) ==> r == Response(Fail(404, LanguageNotFound), t))
      && (r.reply.Ok? ==>
            && |r.tables.languages| == |t.languages| - 1
            && multiset(r.tables.languages) + multiset{FirstOf(t.languages, languageId)} == multiset(t.languages)
            && r.tables == t.(languages := r.tables.languages))
  {
    var r := DeleteLanguageSpec(t, caller, languageId);
    var i := FirstIndex(t.languages, (l: Language) => l.id == languageId);
    if i.Some? {
      assert FirstOf(t.languages, languageId) == t.languages[i.value];
      RemoveAtTakesOne(t.languages, i.value);
    }
  }

  /** The language a delete finds. */
  function FirstOf(ls: seq<Language>, languageId: int): Language
    requires exists k :: 0 <= k < |ls| && ls[k].id == languageId
  {
    ls[FirstIndex(ls, (l: Language) => l.id == languageId).value]
  }

  // ---------------------------------------------------------------------
  // toggle_user_status, delete_user (lines 253-307)
  // ---------------------------------------------------------------------

  datatype ToggleReply = ToggleReply(userId: int, isActive: bool)

  predicate HasId(u: User, id: int) { u.id == id }

  function UserIndex(t: Tables, userId: int): (r: Option<nat>)
    ensures r.Some? ==> r.value < |t.users| && t.users[r.value].id == userId
    ensures r.None? <==> forall k :: 0 <= k < |t.users| ==> t.users[k].id != userId
  {
    FirstIndex(t.users, (u: User) => HasId(u, userId))
  }

  function ToggleUserStatusSpec(t: Tables, caller: User, userId: int): (r: Response<ToggleReply, AdminCause>)
    ensures r.reply.Fail? ==> r.tables == t
  {
    if caller.userType != ADMIN then Response(Fail(403, NotAdmin), t)
    else
      match UserIndex(t, userId)
      case None => Response(Fail(404, UserNotFound), t)
      case Some(k) =>
        var u := t.users[k];
        if u.userType == ADMIN then Response(Fail(403, AdminProtected), t)
        else
          var t' := t.(users := t.users[k := u.(isActive := !u.isActive)]);
          if Consistent(t') then Response(Ok(ToggleReply(u.id, !u.isActive)), t') else Response(Fail(500, AdminCause.CommitFailed), t)
  }

  method ToggleUserStatus(s: Session, caller: User, userId: int) returns (reply: Reply<ToggleReply, AdminCause>)
    requires s.Idle()
    modifies s
    ensures var r := ToggleUserStatusSpec(old(s.db), caller, userId);
      reply == r.reply && s.db == r.tables && s.committed == r.tables
  {
    if caller.userType != ADMIN {
      return Fail(403, NotAdmin);
    }
    var found := UserIndex(s.db, userId);
    if found.None? {
      return Fail(404, UserNotFound);
    }
    var k := found.value;
    var u := s.db.users[k];
    if u.userType == ADMIN {
      return Fail(403, AdminProtected);
    }
    s.db := s.db.(users := s.db.users[k := u.(isActive := !u.isActive)]);
    var ok := s.Commit();
    if !ok {
      s.Rollback();
      return Fail(500, AdminCause.CommitFailed);
    }
    reply := Ok(ToggleReply(u.id, !u.isActive));
  }

  /** Toggling flips `is_active` of that user and nothing else, never
      touches an admin, and toggling twice restores the tables. */
  lemma ToggleTwiceRestores(t: Tables, caller: User, userId: int)
    requires Consistent(t)
    ensures var r := ToggleUserStatusSpec(t, caller, userId);
      && (r.reply.Ok? ==>
            var k := UserIndex(t, userId).value;
            && t.users[k].userType == USER
            && r.tables == t.(users := t.users[k := t.users[k].(isActive := !t.users[k].isActive)])
            && r.reply.value.isActive == !t.users[k].isActive
            && ToggleUserStatusSpec(r.tables, caller, userId).tables == t)
      && (UserIndex(t, userId).Some? && t.users[UserIndex(t, userId).value].userType == ADMIN ==> r.tables == t && r.reply.Fail?)
  {
    var r := ToggleUserStatusSpec(t, caller, userId);
    if r.reply.Ok? {
      var k := UserIndex(t, userId).value;
      var t1 := r.tables;
      assert forall j :: 0 <= j < |t1.users| ==> HasId(t1.users[j], userId) == HasId(t.users[j], userId);
      assert UserIndex(t1, userId) == Some(k) by {
        var a := UserIndex(t1, userId);
        assert a.Some?;
        assert !(a.value < k) && !(k < a.value);
      }
      assert t1.users[k := t1.users[k].(isActive := !t1.users[k].isActive)] == t.users;
    }
  }

  function DeleteUserSpec(t: Tables, caller: User, userId: int): (r: Response<(), AdminCause>)
    ensures r.reply.Fail? ==> r.tables == t
  {
    if caller.userType != ADMIN then Response(Fail(403, NotAdmin), t)
    else
      match UserIndex(t, userId)
      case None => Response(Fail(404, UserNotFound), t)
      case Some(k) =>
        if t.users[k].userType == ADMIN then Response(Fail(403, AdminProtected), t)
        else
          var t' := t.(users := RemoveAt(t.users, k));
          if Consistent(t') then Response(Ok(()), t') else Response(Fail(500, AdminCause.CommitFailed), t)
  }

  method DeleteUser(s: Session, caller: User, userId: int) returns (reply: Reply<(), AdminCause>)
    requires s.Idle()
    modifies s
    ensures var r := DeleteUserSpec(old(s.db), caller, userId);
      reply == r.reply && s.db == r.tables && s.committed == r.tables
  {
    if caller.userType != ADMIN {
      return Fail(403, NotAdmin);
    }
    var found := UserIndex(s.db, userId);
    if found.None? {
      return Fail(404, UserNotFound);
    }
    var k := found.value;
    if s.db.users[k].userType == ADMIN {
      return Fail(403, AdminProtected);
    }
    s.db := s.db.(users := RemoveAt(s.db.users, k));
    var ok := s.Commit();
    if !ok {
      s.Rollback();
      return Fail(500, AdminCause.CommitFailed);
    }
    reply := Ok(());
  }

  /** Delete is 404 for a missing user and 403 for an admin; otherwise the
      first row with that id, a non-admin, is cut out of the users table, so
      every admin survives. */
  lemma DeleteUserSparesAdmins(t: Tables, caller: User, userId: int)
    requires caller.userType == ADMIN
    ensures var r := DeleteUserSpec(t, caller, userId);
      && (UserIndex(t, userId).None? ==> r == Response(Fail(404, UserNotFound), t))
      && (UserIndex(t, userId).Some? && t.users[UserIndex(t, userId).value].userType == ADMIN ==>
            r == Response(Fail(403, AdminProtected), t))
      && (forall k :: 0 <= k < |t.users| && t.users[k].userType == ADMIN ==> t.users[k] in r.tables.users)
      && (r.reply.Ok? ==>
            && UserIndex(t, userId).Some?
            && var k := UserIndex(t, userId).value;
            && t.users[k].userType != ADMIN
            && r.tables.users == t.users[..k] + t.users[k + 1..]
            && r.tables == t.(users := r.tables.users))
  {
    var r := DeleteUserSpec(t, caller, userId);
    if r.reply.Ok? {
      var k := UserIndex(t, userId).value;
      forall j | 0 <= j < |t.users| && t.users[j].userType == ADMIN
        ensures t.users[j] in r.tables.users
      {
        if j < k {
          assert r.tables.users[j] == t.users[j];
        } else {
          assert j != k;
          assert r.tables.users[j - 1] == t.users[j];
        }
      }
    }
  }

  /** Every admin endpoint refuses a caller who is not an admin with 403 and
      leaves the tables as they were. */
  lemma NonAdminsAreRefused(t: Tables, caller: User, name: string, slug: string, id: int)
    requires caller.userType != ADMIN
    ensures AdminStats(t, caller) == Fail(403, NotAdmin)
    ensures CreateLanguageSpec(t, caller, name, slug) == Response(Fail(403, NotAdmin), t)
    ensures DeleteLanguageSpec(t, caller, id) == Response(Fail(403, NotAdmin), t)
    ensures ToggleUserStatusSpec(t, caller, id) == Response(Fail(403, NotAdmin), t)
    ensures DeleteUserSpec(t, caller, id) == Response(Fail(403, NotAdmin), t)
  {
  }

  /** Rewriting one user row without changing its type changes no dashboard
      figure. */
  lemma StatsAfterUserEdit(t: Tables, k: nat, u: User)
    requires k < |t.users| && u.userType == t.users[k].userType
    ensures StatsOf(t.(users := t.users[k := u])) == StatsOf(t)
  {
    CountSame(t.users, t.users[k := u], IsPlainUser);
    CountSame(t.users, t.users[k := u], IsAdmin);
  }

  /** Toggling a user's status changes no dashboard figure. */
  lemma ToggleKeepsStats(t: Tables, caller: User, userId: int)
    ensures StatsOf(ToggleUserStatusSpec(t, caller, userId).tables) == StatsOf(t)
  {
    if caller.userType == ADMIN && UserIndex(t, userId).Some? {
      var k := UserIndex(t, userId).value;
      var u := t.users[k];
      StatsAfterUserEdit(t, k, u.(isActive := !u.isActive));
    }
  }

  /** A successful deletion lowers `total_users` by one and changes no other
      figure. */
  lemma DeleteUserStats(t: Tables, caller: User, userId: int)
    ensures var r := DeleteUserSpec(t, caller, userId);
      r.reply.Ok? ==> StatsOf(r.tables) == StatsOf(t).(totalUsers := StatsOf(t).totalUsers - 1)
  {
    var r := DeleteUserSpec(t, caller, userId);
    if r.reply.Ok? {
      var k := UserIndex(t, userId).value;
      assert r.tables == t.(users := RemoveAt(t.users, k));
      CountRemoveAt(t.users, k, IsPlainUser);
      CountRemoveAt(t.users, k, IsAdmin);
    }
  }
}
