# DesiCodes billing backend — a Dafny model

DesiCodes is a FastAPI + SQLAlchemy service. Users translate code from other
languages into Python and run it. A free plan allows two runs; a paid plan,
bought through the Razorpay gateway, removes the limit and earns certificates.
This project models the core of that backend in Dafny and proves what its
code promises:

- the billing ledger (plans, subscriptions, invoices, payments): creating a
  gateway subscription, verifying a payment, the payment history, invoice
  download, the payment-method endpoints, and cancel and resume;
- the access rules: the free-plan run limit, certificate eligibility, the
  admin gate, and the login decision order;
- account and admin operations: registration, social sign-in, listing,
  toggling and deleting users, managing languages, and the dashboard
  aggregates;
- the maintenance scripts: plan cleanup, seeding plans and languages,
  repairing enum spellings, and creating an admin;
- the small pure functions: plan-feature formatting, the sandbox's banned
  substring check, code-fence stripping, GitHub email choice, social
  usernames, and the CORS origin list.

How it is modelled:

- **Database.** The database is a value `Models.Tables`, with one sequence
  per table and a single id counter. `.first()` is the first matching row in
  sequence order.
- **Session.** A request's session is the class `Store.Session`. Its field
  `db` is the working copy and `committed` is the durable copy. `Commit`
  succeeds exactly when the schema's unique and width constraints hold.
  `Rollback` restores the committed copy.
- **Endpoints.** Each endpoint and script is a method on a session. Its
  `ensures` ties the reply and the new state to a pure specification
  function (`...Spec`). The lemmas state the source's promises about that
  function.
- **Outside calls.** The Razorpay client, the OpenAI translation, `exec`,
  the identity providers, password hashing and the clock are parameters.
  Each gateway call is an oracle `Call<T>` that either returns a value or
  raises with a message. The model records the calls an endpoint makes to
  the gateway.

Module layout:

| module | what it models |
|---|---|
| `Common` | option and reply types, first-match lookup, filter and count over sequences |
| `Text` | strings as character sequences |
| `Models` | the ORM models and their constraints |
| `Store` | the session |
| `Gateway` | the Razorpay configuration and requests |
| `Payments`, `PaymentMethods`, `Cancellation` | the billing endpoints |
| `Auth`, `Admin`, `Execution`, `Certificates` | the remaining endpoints |
| `CleanupPlans`, `Seeds`, `EnumFixes`, `CreateAdmin` | the scripts |
| `Origins` | the CORS origin list |

## Model

| member | source | states |
|---|---|---|
| Models.AtMostOnePlanPerType | aspy_backend/app/models/subscription.py:23 | the unique `type` column allows at most one plan per plan type |
| Models.AtMostOnePlanPerName | aspy_backend/app/models/subscription.py:22 | the unique `name` column allows at most one plan per name |
| Models.SeveralSubscriptionsPerUser | aspy_backend/app/models/subscription.py:36-39 | `user_id` is not unique: any consistent database stays consistent when a subscription without a gateway reference or card is added for any user, and an ACTIVE one adds one to that user's ACTIVE count |
| Models.FindPlanOpt | aspy_backend/app/models/invoice.py:18 | a null `plan_id` finds no plan |
| Models.ActiveSubscriptionIndex | aspy_backend/app/api/v1/payments.py:551-556 | the lookup finds an ACTIVE subscription of the user, and finds none exactly when the user has none |
| Store.Session.Commit | aspy_backend/app/models/subscription.py:18-50 | the commit succeeds exactly when the working copy meets the unique and width constraints; on success it becomes the durable copy, otherwise nothing changes |
| Store.Session.Flush | aspy_backend/app/api/v1/payments.py:227 | a flush raises exactly when the pending rows break a constraint, and makes nothing durable |
| Store.Session.Rollback | aspy_backend/app/api/v1/payments.py:316-321 | the working copy returns to the last committed state |
| Payments.RenderValue | aspy_backend/app/api/v1/payments.py:46-51 | a boolean prints as Yes or No, and Yes exactly when true; an integer prints as its decimal digits, which read back as the number, with a leading `-` when negative |
| Payments.FeatureLabel | aspy_backend/app/api/v1/payments.py:45 | a label is as long as its key and has no underscore |
| Payments.FormattedFeatures | aspy_backend/app/api/v1/payments.py:35-55 | the fallback text comes exactly for features that cannot be read; a non-empty object gives a text holding ':' |
| Payments.FormatPlanFeatures | aspy_backend/app/api/v1/payments.py:35-55 | the loop builds the formatted feature text; the fallback "View features for details" comes back exactly when the features cannot be read |
| Payments.EntryTexts | aspy_backend/app/api/v1/payments.py:43-51 | the loop yields one "Label: value" text per features entry, in the object's order |
| Payments.FeatureLabelShape | aspy_backend/app/api/v1/payments.py:45 | a key's label has the key's length, no underscore (underscores become spaces), and a capital at the start of each word |
| Payments.JoinedFeaturesAreNotFallback | aspy_backend/app/api/v1/payments.py:44-53 | a non-empty feature list never renders as the fallback text |
| Payments.SetCustomerId | aspy_backend/app/api/v1/payments.py:105 | storing the customer id changes only the users table and keeps its size |
| Payments.CreateSubscriptionSpec | aspy_backend/app/api/v1/payments.py:62-148 | create keeps the database consistent |
| Payments.CreateRazorpaySubscription | aspy_backend/app/api/v1/payments.py:62-148 | the endpoint's reply, gateway calls and committed state are those of the specification |
| Payments.CreateLive | aspy_backend/app/api/v1/payments.py:96-106 | the customer stage on the session: the customer is created and committed only when the user has none, and a gateway or commit failure stops before the subscription request |
| Payments.Subscribe | aspy_backend/app/api/v1/payments.py:108-148 | the subscription request follows every earlier call, and the pending invoice is committed only on a returned subscription; a failure rolls back to what the customer stage committed |
| Payments.CreateRejectsBeforeWriting | aspy_backend/app/api/v1/payments.py:72-81 | an unknown plan gives 404 and a plan without a gateway plan id gives 400, with no write and no gateway call |
| Payments.CreateMockWritesNothing | aspy_backend/app/api/v1/payments.py:85-95 | in mock mode create writes nothing and calls nothing; it returns an id prefixed `sub_mock_<user>_`, the price in paise and the dummy key |
| Payments.CreateLiveAddsPendingInvoice | aspy_backend/app/api/v1/payments.py:97-144 | a live create appends exactly one `pending` invoice for the user and plan, with amount price/100 and keyed by the gateway subscription id; the reply amount stays in paise |
| Payments.CreateFailureKeepsOnlyCustomer | aspy_backend/app/api/v1/payments.py:97-148 | every failure is 400, 404 or 500, writes no invoice, and leaves at most the committed customer id behind |
| Payments.CreateKeepsCommittedCustomer | aspy_backend/app/api/v1/payments.py:97-106 | when the gateway's subscription call raises after the customer id was committed, the reply is 500 and the customer id survives the rollback |
| Payments.MockIdRecognised | aspy_backend/app/api/v1/payments.py:87 | a mock subscription id starts with `sub_mock_` and determines its user and timestamp |
| Payments.PendingInvoiceIndex | aspy_backend/app/api/v1/payments.py:160-166 | the lookup finds a `pending` invoice of this user with this gateway ref, and none exactly when none exists |
| Payments.OwnedIndex | aspy_backend/app/api/v1/payments.py:251-253 | the subscription to activate is found by user id alone, whatever its status |
| Payments.ActivateSpec | aspy_backend/app/api/v1/payments.py:247-299 | activation touches only subscriptions, the one payment's and the one invoice's subscription link, and the id counter |
| Payments.PutOnPlan | aspy_backend/app/api/v1/payments.py:247-299 | the in-place activation produces exactly the specified tables and commits nothing |
| Payments.PlaceOnPlan | aspy_backend/app/api/v1/payments.py:250-277 | the user's first subscription is renewed on the plan, or a new ACTIVE one appended, and the returned index is where it sits |
| Payments.SettleSpec | aspy_backend/app/api/v1/payments.py:213-314 | settling fails only with 500 and no change, and keeps the database consistent |
| Payments.Settle | aspy_backend/app/api/v1/payments.py:213-321 | the method's reply, calls and state are those of the specification |
| Payments.StampInvoice | aspy_backend/app/api/v1/payments.py:213-245 | only the settled invoice changes, to paid with the fetched URL when the gateway was asked, and the invoice fetch is the last call made |
| Payments.VerifySpec | aspy_backend/app/api/v1/payments.py:152-321 | every verify failure, including invoice not found and a bad signature, is a 500 with everything rolled back; consistency is kept |
| Payments.VerifyAfterLookup | aspy_backend/app/api/v1/payments.py:171-321 | the same, once the invoice is found |
| Payments.VerifyLiveSpec | aspy_backend/app/api/v1/payments.py:176-210 | the same for the live branch (signature check, then payment fetch) |
| Payments.VerifyRazorpayPayment | aspy_backend/app/api/v1/payments.py:152-321 | the endpoint's reply, calls and committed state are those of the specification |
| Payments.VerifyFoundInvoice | aspy_backend/app/api/v1/payments.py:171-321 | the same, once the invoice is found |
| Payments.VerifyLive | aspy_backend/app/api/v1/payments.py:176-321 | the same for the live branch |
| Payments.SettleRejectsKnownPayment | aspy_backend/app/models/payment.py:25 | a gateway payment id already recorded makes settling fail with nothing changed |
| Payments.SettleRecordsPayment | aspy_backend/app/api/v1/payments.py:213-233 | a successful settle appends one COMPLETED payment from provider `razorpay`, marks the invoice `paid` with its payment id and the paid amount, and activates the plan |
| Payments.VerifyRecordsOnePayment | aspy_backend/app/api/v1/payments.py:152-305 | a successful verify found a pending invoice and either mock mode or a good signature and fetched payment; it records exactly one payment with the invoice's own amount (mock) or the fetched amount/100 (live) |
| Payments.VerifyMockRecords | aspy_backend/app/api/v1/payments.py:205-233 | in mock mode the recorded amount is the invoice's own amount |
| Payments.VerifyLiveRecords | aspy_backend/app/api/v1/payments.py:176-233 | a live success needs a signature that was not rejected and a fetched payment, and records the fetched amount/100 |
| Payments.VerifyRejectsKnownPayment | aspy_backend/app/api/v1/payments.py:160-321 | a verify whose gateway payment id is already recorded fails with nothing changed |
| Payments.LiveRejectsKnownPayment | aspy_backend/app/api/v1/payments.py:176-321 | the same for the live branch |
| Payments.VerifyReplayRejected | aspy_backend/app/api/v1/payments.py:160-166 | replaying a verify that succeeded fails and adds no second payment |
| Payments.PlanSlot | aspy_backend/app/api/v1/payments.py:249-262 | verify's row is the user's first subscription, or the slot past the end exactly when the user has none |
| Payments.ActivatePutsOnPlan | aspy_backend/app/api/v1/payments.py:247-305 | with the invoice's plan present, the user's subscription is created or overwritten as ACTIVE on that plan, ref = order id, period of 30 days from now; payment and invoice are linked to it; an overwrite keeps id and cancel flags; a live card payment sets the card columns; with the plan missing nothing changes |
| Payments.MockPaymentClearsCard | aspy_backend/app/api/v1/payments.py:293-299 | a mock `card` payment overwrites all card columns with null |
| Payments.InsertByDate | aspy_backend/app/api/v1/payments.py:334 | inserting into a newest-first list keeps it newest-first and adds exactly that payment |
| Payments.SortNewestFirst | aspy_backend/app/api/v1/payments.py:334 | ordering by `created_at` descending gives a newest-first permutation |
| Payments.NewestMatching | aspy_backend/app/api/v1/payments.py:475 | the newest matching payment is a match no older than any other match, and is absent exactly when nothing matches |
| Payments.SortedHeadIsNewest | aspy_backend/app/api/v1/payments.py:470-475 | the head of the sorted matches is the newest match |
| Payments.PlanNameOf | aspy_backend/app/api/v1/payments.py:339-341 | the plan name is that of the plan of the first subscription with the payment's subscription id; none when the payment has no subscription, the subscription is missing or its plan is missing |
| Payments.SubscriptionIndex | aspy_backend/app/api/v1/payments.py:340 | the subscription a payment links to is the first row with its id, and there is none exactly when no row has that id |
| Payments.MethodLabel | aspy_backend/app/api/v1/payments.py:343-346 | details that are not an object give "Unknown"; an object gives its `method` entry, "Unknown" when absent, so the empty-object check changes nothing |
| Payments.HistoryEntryOf | aspy_backend/app/api/v1/payments.py:338-358 | an entry copies the payment's id, amount, currency, provider and date, reports the status value, takes its plan name from `PlanNameOf` (none without a subscription) and its method from `MethodLabel` ("Unknown" for details that are not an object) |
| Payments.PaymentHistory | aspy_backend/app/api/v1/payments.py:325-360 | the loop returns one history entry per payment of the user, newest first |
| Payments.HistoryIsUsersPayments | aspy_backend/app/api/v1/payments.py:330-334 | the history is newest-first and a permutation of exactly the user's payments |
| Payments.VerifiedPaymentMethodLabel | aspy_backend/app/api/v1/payments.py:213-225 | a verified payment is listed with status `completed` and method `razorpay` |
| Payments.OwnInvoiceIndex | aspy_backend/app/api/v1/payments.py:394-397 | the lookup finds this invoice only when it belongs to the caller |
| Payments.DownloadSpec | aspy_backend/app/api/v1/payments.py:383-436 | every download failure is a 404 with nothing changed; consistency is kept |
| Payments.DownloadInvoice | aspy_backend/app/api/v1/payments.py:383-436 | the endpoint's reply, calls and committed state are those of the specification |
| Payments.DownloadOwnOrCached | aspy_backend/app/api/v1/payments.py:394-406 | another user's invoice gives 404; a stored URL is returned with no gateway call |
| Payments.DownloadCachesUrl | aspy_backend/app/api/v1/payments.py:408-430 | after a successful download, a second one returns the same URL without a gateway call |
| Payments.DownloadWritesOnlyUrl | aspy_backend/app/api/v1/payments.py:408-436 | mock mode writes and calls nothing; otherwise only the invoice's URL is written, and only with a non-empty URL |
| PaymentMethods.CurrentPaymentMethod | PAYMENT_METHOD_ENDPOINTS.py:4-57 | a card is shown exactly when the ACTIVE subscription has card digits, and "no subscription" exactly when there is none; it never fails |
| PaymentMethods.CurrentPaymentMethodCases | PAYMENT_METHOD_ENDPOINTS.py:4-57 | no ACTIVE subscription gives "no method" without an error; card columns win, with the brand defaulting to "Unknown"; otherwise the newest COMPLETED payment's details give the method exactly when they are a non-empty object, with the method defaulting to "Unknown"; in every other case "details not available" |
| PaymentMethods.CardMethodFromVerifiedCard | PAYMENT_METHOD_ENDPOINTS.py:24-34 | a card stored by a live verify is reported with its network, last four digits and expiry |
| PaymentMethods.UpdatePaymentMethod | PAYMENT_METHOD_ENDPOINTS.py:61-106 | update never writes |
| PaymentMethods.UpdatePaymentMethodCases | PAYMENT_METHOD_ENDPOINTS.py:61-106 | 404 without an ACTIVE subscription; success exactly when the subscription has a gateway ref, the gateway is live and the fetch returns; failures are 400, 404 or 500; mock mode always fails without a call |
| Cancellation.WithCancellation | CANCELLATION_ENDPOINTS.py:31-32 | setting the cancel columns keeps the table size and the constraints |
| Cancellation.CancelSpec | CANCELLATION_ENDPOINTS.py:4-64 | a cancel failure leaves everything unchanged; consistency is kept |
| Cancellation.CancelSubscriptionEndpoint | CANCELLATION_ENDPOINTS.py:4-64 | the endpoint's reply, calls and committed state are those of the specification |
| Cancellation.ResumeSpec | CANCELLATION_ENDPOINTS.py:67-108 | resume never calls the gateway, changes nothing on failure, and keeps consistency |
| Cancellation.ResumeSubscription | CANCELLATION_ENDPOINTS.py:67-108 | the endpoint's reply and committed state are those of the specification |
| Cancellation.SameActiveSubscription | CANCELLATION_ENDPOINTS.py:12-16 | changing the cancel columns does not change which subscription is the user's ACTIVE one |
| Cancellation.CancelCases | CANCELLATION_ENDPOINTS.py:12-63 | 404 without an ACTIVE subscription; an already flagged subscription is reported with its period end and not written; no gateway call without a ref or in mock mode; with a ref in live mode the gateway cancel at cycle end comes first, and its failure gives 500 with nothing written |
| Cancellation.CancelSetsOnlyTheFlag | CANCELLATION_ENDPOINTS.py:28-53 | a cancel that succeeds sets only `cancel_at_period_end` and `cancelled_at` = now on that subscription |
| Cancellation.CancelIdempotent | CANCELLATION_ENDPOINTS.py:21-26 | cancelling again writes and calls nothing and reports it as already cancelled |
| Cancellation.ResumeCases | CANCELLATION_ENDPOINTS.py:75-100 | 404 without an ACTIVE subscription; not flagged gives `not_cancelled` with no write; resuming clears the flag and `cancelled_at` and nothing else |
| Cancellation.ResumeIdempotent | CANCELLATION_ENDPOINTS.py:82-87 | resuming again reports `not_cancelled` and changes nothing |
| Cancellation.CancelThenResume | CANCELLATION_ENDPOINTS.py:28-100 | cancel followed by resume restores (False, None), and restores the whole database when `cancelled_at` was empty |
| Auth.CreateAccount | aspy_backend/app/api/v1/auth.py:205-228 | account creation fails only with 500 and succeeds on a consistent database, keeping it consistent |
| Auth.CreateAccountOn | aspy_backend/app/api/v1/auth.py:205-228 | the method's reply and committed state are those of the specification |
| Auth.CreateAccountAddsUser | aspy_backend/app/api/v1/auth.py:205-228 | one active, non-superuser USER row is appended; when a FREE plan exists, one ACTIVE subscription on it with a start date and no end date follows; nothing else changes |
| Auth.RegisterSpec | aspy_backend/app/api/v1/auth.py:187-244 | registration keeps the database consistent |
| Auth.RegisterUser | aspy_backend/app/api/v1/auth.py:187-244 | the endpoint's reply and committed state are those of the specification |
| Auth.RegisterRejectsDuplicates | aspy_backend/app/api/v1/auth.py:190-203 | a taken email gives 400 before the username is checked, then a taken username gives 400; neither writes |
| Auth.RegisterCreatesAccount | aspy_backend/app/api/v1/auth.py:205-244 | a fresh email and username create the account, and the token names the new active user |
| Auth.LoginSpec | aspy_backend/app/api/v1/auth.py:247-282 | login fails only with 401 or 403; a success names an active user of the table with that email whose password matches |
| Auth.LoginDecisionOrder | aspy_backend/app/api/v1/auth.py:249-267 | an unknown email and a wrong password give the same 401; 403 for an inactive user exactly when the password matched; success exactly for a matching active user, with a token for them |
| Auth.ActiveUser | aspy_backend/app/api/v1/auth.py:302-305 | an inactive user is rejected with 400, an active one passes unchanged |
| Auth.GitHubEmailChoice | aspy_backend/app/api/v1/auth.py:84-89 | the chosen email is the prior one or an entry's email, and an empty list keeps the prior one |
| Auth.ChooseGitHubEmail | aspy_backend/app/api/v1/auth.py:84-89 | the loop computes the GitHub email choice |
| Auth.GitHubEmailChoiceMeaning | aspy_backend/app/api/v1/auth.py:84-89 | the first primary and verified entry wins when it has an email, and when its email is empty the first entry's is taken; with no such entry a prior email stays, and otherwise the first entry's is taken; no entries keep the prior email |
| Auth.GoogleIdentity | aspy_backend/app/api/v1/auth.py:20-37 | success exactly for a returned 200 answer with an email, and every failure is 401; on success Google's email is used, and its name, or "Google User" when the entry is absent, or none when it is null |
| Auth.GoogleNullNameDefaults | aspy_backend/app/api/v1/auth.py:144-146 | a null Google name gives a new account the username `user_<suffix>` |
| Auth.GitHubIdentity | aspy_backend/app/api/v1/auth.py:40-92 | 500 exactly when GitHub is not configured, any other failure is 401; a success has fetched the user, names it by its name or else its login, and keeps the profile's email when it has one |
| Auth.AppleIdentity | aspy_backend/app/api/v1/auth.py:95-134 | fails with 401 exactly when verification raised; a success always has a name, and takes the token's email when it has one and the request's otherwise |
| Auth.ResolveIdentity | aspy_backend/app/api/v1/auth.py:20-134 | the provider dispatch computes the specified identity |
| Auth.ProviderCaseInsensitive | aspy_backend/app/api/v1/auth.py:20 | the provider name is matched case-insensitively |
| Auth.UncheckedProviderTrustsClient | aspy_backend/app/api/v1/auth.py:95-134 | an unknown provider, or one without its token or code, skips verification and uses the client's email and name |
| Auth.GoogleFailuresAre401 | aspy_backend/app/api/v1/auth.py:20-37 | in the Google branch every failure, the "no email" case included, surfaces as 401 |
| Auth.SocialLoginSpec | aspy_backend/app/api/v1/auth.py:16-184 | social login keeps the database consistent |
| Auth.SignIn | aspy_backend/app/api/v1/auth.py:136-184 | the sign-in after the provider step keeps the database consistent |
| Auth.SocialLogin | aspy_backend/app/api/v1/auth.py:16-184 | the endpoint's reply and committed state are those of the specification |
| Auth.SocialLoginNeedsEmail | aspy_backend/app/api/v1/auth.py:136-137 | no email after the provider step gives 400 and writes nothing |
| Auth.SocialLoginReusesUser | aspy_backend/app/api/v1/auth.py:139-184 | an existing email signs in the first user with it, unchanged, with nothing written |
| Auth.SocialUsername | aspy_backend/app/api/v1/auth.py:144-146 | a new username ends with `_` and the random suffix, and has no space when the suffix has none |
| Auth.SocialUsernameShape | aspy_backend/app/api/v1/auth.py:145-146 | a new username is the name (default `user`) without spaces, lower-cased, then `_` and the random suffix |
| Auth.SocialLoginCreatesAccount | aspy_backend/app/api/v1/auth.py:141-169 | a new email creates the same account registration would, under the social username |
| Admin.AdminGate | aspy_backend/app/api/v1/admin.py:19-25 | the gate passes exactly an ADMIN caller, and otherwise answers 403 |
| Admin.NonAdminsAreRefused | aspy_backend/app/api/v1/admin.py:19-25 | stats, create and delete language, toggle and delete user all refuse a non-admin with 403 and write nothing |
| Admin.UsersAndAdminsPartition | aspy_backend/app/api/v1/admin.py:84-85 | every user is counted either as a USER or as an ADMIN |
| Admin.StatsOf | aspy_backend/app/api/v1/admin.py:84-103 | the user, admin and ACTIVE figures are bounded by their tables, and the execution and language figures are the table sizes |
| Admin.StatsCountMeaning | aspy_backend/app/api/v1/admin.py:84-86 | `total_users`, `total_admins` and `active_subscriptions` count the USER rows, the ADMIN rows and the ACTIVE subscriptions: each is zero exactly when no row qualifies and the table size exactly when every row does |
| Admin.StatsPartitionUsers | aspy_backend/app/api/v1/admin.py:84-85 | `total_users` and `total_admins` together make up all users |
| Admin.StatsAfterNewUser | aspy_backend/app/api/v1/admin.py:84-86 | a new user row adds one to the figure of its own type and changes no other figure |
| Admin.StatsAfterCreateAccount | aspy_backend/app/api/v1/admin.py:84-86 | a registered account adds one to `total_users`, none to `total_admins`, and one ACTIVE subscription exactly when a FREE plan exists |
| Admin.StatsAfterUserEdit | aspy_backend/app/api/v1/admin.py:84-86 | rewriting one user row without changing its type leaves every dashboard figure unchanged |
| Admin.ToggleKeepsStats | aspy_backend/app/api/v1/admin.py:84-86 | toggling a user's status leaves every dashboard figure unchanged |
| Admin.DeleteUserStats | aspy_backend/app/api/v1/admin.py:84-86 | a successful user deletion lowers `total_users` by one and leaves every other figure unchanged |
| Admin.NoCompletedPaymentNoRevenue | aspy_backend/app/api/v1/admin.py:89-91 | with no COMPLETED payment, `total_revenue` is 0.0 |
| Admin.RevenueAfterPayment | aspy_backend/app/api/v1/admin.py:89-91 | revenue grows by a new payment's amount exactly when that payment is COMPLETED |
| Admin.VerifyAddsRevenue | aspy_backend/app/api/v1/admin.py:89-91 | a successful verify adds exactly the verified amount to the revenue |
| Admin.Page | aspy_backend/app/api/v1/admin.py:125-126 | skip then limit: at most `limit` rows, the slice starting at `skip` |
| Admin.GetAllUsers | aspy_backend/app/api/v1/admin.py:106-157 | 403 for a non-admin and 422 for a bad page; otherwise one row per listed user, in order |
| Admin.UserRows | aspy_backend/app/api/v1/admin.py:128-155 | the loop yields one row per user, in order, each that user's row |
| Admin.ListedUsersShape | aspy_backend/app/api/v1/admin.py:114-126 | only USER rows, each matching the search case-insensitively in username or email, at most `limit` of them; without search and paging, all USER rows |
| Admin.UserRowReportsActiveSubscription | aspy_backend/app/api/v1/admin.py:131-152 | status and plan come from an ACTIVE subscription, status is present exactly when one exists, and the certificate count is 0 |
| Admin.GetAllSubscriptions | aspy_backend/app/api/v1/admin.py:160-190 | 403 for a non-admin; otherwise one row per subscription in the page |
| Admin.SubscriptionRows | aspy_backend/app/api/v1/admin.py:169-188 | the loop yields one row per subscription, in order, each that subscription's row |
| Admin.AmountPaidIsNewest | aspy_backend/app/api/v1/admin.py:172-177 | `amount_paid` is the newest COMPLETED payment of the user, else 0.0 |
| Admin.CreateLanguageSpec | aspy_backend/app/api/v1/admin.py:202-231 | a failure writes nothing |
| Admin.CreateLanguage | aspy_backend/app/api/v1/admin.py:202-231 | the endpoint's reply and committed state are those of the specification |
| Admin.CreateLanguageOnce | aspy_backend/app/api/v1/admin.py:209-231 | 400 exactly when a language has the same name or slug; otherwise exactly one row is appended, and a repeat is rejected |
| Admin.DeleteLanguageSpec | aspy_backend/app/api/v1/admin.py:234-251 | a failure writes nothing |
| Admin.DeleteLanguage | aspy_backend/app/api/v1/admin.py:234-251 | the endpoint's reply and committed state are those of the specification |
| Admin.DeleteLanguageRemovesOne | aspy_backend/app/api/v1/admin.py:240-251 | a missing id gives 404; a success removes exactly that one row and changes nothing else |
| Admin.UserIndex | aspy_backend/app/api/v1/admin.py:260-262 | the lookup finds the user with that id, and none exactly when none exists |
| Admin.ToggleUserStatusSpec | aspy_backend/app/api/v1/admin.py:254-281 | a failure writes nothing |
| Admin.ToggleUserStatus | aspy_backend/app/api/v1/admin.py:254-281 | the endpoint's reply and committed state are those of the specification |
| Admin.ToggleTwiceRestores | aspy_backend/app/api/v1/admin.py:260-281 | a toggle flips only `is_active` of a USER row; toggling twice restores the table; an admin is left alone |
| Admin.DeleteUserSpec | aspy_backend/app/api/v1/admin.py:284-307 | a failure writes nothing |
| Admin.DeleteUser | aspy_backend/app/api/v1/admin.py:284-307 | the endpoint's reply and committed state are those of the specification |
| Admin.DeleteUserSparesAdmins | aspy_backend/app/api/v1/admin.py:290-307 | a missing user gives 404 and an admin 403; no admin is ever removed; a success cuts out exactly the first row with that id, a non-admin, and the model writes no other table |
| Execution.SafeOutput | aspy_backend/app/api/v1/execution.py:20-45 | banned code gives the security error whatever `exec` would do; there is no output exactly when unbanned code escapes from `exec`; any other text is what `exec` printed |
| Execution.ExecutePythonSafe | aspy_backend/app/api/v1/execution.py:20-45 | code with a banned substring gives the security error without running; other code gives what it printed, or nothing when it escapes |
| Execution.BannedAnywhereBlocks | aspy_backend/app/api/v1/execution.py:26-29 | a banned substring at any position blocks the code, even code that would escape from `exec` |
| Execution.IsUnlimited | aspy_backend/app/api/v1/execution.py:54-65 | an unlimited user has an ACTIVE subscription on a plan with price > 0; a user without an ACTIVE subscription is limited |
| Execution.UnlimitedIffPaidActive | aspy_backend/app/api/v1/execution.py:54-65 | for a user with at most one ACTIVE subscription, the user is unlimited exactly when an ACTIVE subscription's plan has price > 0 |
| Execution.StripFences | aspy_backend/app/api/v1/execution.py:91 | the code is never longer than the answer and neither starts nor ends with whitespace |
| Execution.StrippedCodeHasNoFence | aspy_backend/app/api/v1/execution.py:91 | the stripped code contains no code fence |
| Execution.PlainAnswerUnchanged | aspy_backend/app/api/v1/execution.py:91 | a fence-free, already trimmed answer is kept as it is |
| Execution.LanguageIdFor | aspy_backend/app/api/v1/execution.py:113-124 | the language id is that of a language whose slug is the lower-cased request language, else none |
| Execution.FinalOutput | aspy_backend/app/api/v1/execution.py:74-108 | there is no output exactly when unbanned generated code escapes from `exec`; a translated run's output begins with the generated code |
| Execution.ProduceOutput | aspy_backend/app/api/v1/execution.py:74-108 | the output the endpoint builds, screening the generated code before running it, is the one the specification gives, none when the run escapes |
| Execution.ExecuteSpec | aspy_backend/app/api/v1/execution.py:48-132 | a failure writes nothing |
| Execution.ExecuteCode | aspy_backend/app/api/v1/execution.py:48-132 | the endpoint's reply and committed state are those of the specification |
| Execution.LimitGate | aspy_backend/app/api/v1/execution.py:67-73 | 403 exactly for a limited user with two or more recorded runs, and then nothing is recorded |
| Execution.RunIsRecorded | aspy_backend/app/api/v1/execution.py:100-130 | every successful run appends exactly one execution record holding the request and the returned output, even after a failed translation, and so counts toward the limit |
| Execution.EscapeRecordsNothing | aspy_backend/app/api/v1/execution.py:38-40 | past the gate, a 500 for the escape comes exactly when unbanned code escapes from `exec`, and then nothing is recorded or counted |
| Execution.TwoFreeRuns | aspy_backend/app/api/v1/execution.py:53-73 | a limited user with no runs gets two and is refused the third |
| Execution.BannedCodeIsNotRun | aspy_backend/app/api/v1/execution.py:94-97 | banned generated code is reported with the security error, whatever running it would have printed |
| Execution.FailedTranslationReported | aspy_backend/app/api/v1/execution.py:100-108 | a translation error naming API_KEY gives the simulated output; any other error is reported with its message |
| Certificates.Earliest | aspy_backend/app/api/v1/certificates.py:59-67 | the issue date is a matching run's date, no later than any matching run's |
| Certificates.GetUserCertificates | aspy_backend/app/api/v1/certificates.py:14-74 | without access the reply is not eligible with the upgrade message; with access, one certificate per used language, in language order |
| Certificates.CertificatesMeaning | aspy_backend/app/api/v1/certificates.py:45-69 | each certificate is for a language the user ran code in, has id `cert_<user>_<slug>` and the earliest run's date; every used language is certified |
| Certificates.NoRunsNoCertificates | aspy_backend/app/api/v1/certificates.py:45-74 | a user with no run in a known language gets an empty list |
| Certificates.HasAccess | aspy_backend/app/api/v1/certificates.py:23-32 | access needs an ACTIVE subscription on a PRO or paid plan; a user without an ACTIVE subscription has none |
| Certificates.AccessByPlan | aspy_backend/app/api/v1/certificates.py:23-32 | access is granted exactly when the ACTIVE subscription's plan is PRO or costs more than 0 |
| Origins.StrippedPieces | aspy_backend/app/main.py:25 | no kept piece is empty |
| Origins.StrippedPiecesMeaning | aspy_backend/app/main.py:25 | the configured origins are exactly the trimmed non-empty comma-separated pieces |
| Origins.Dedup | aspy_backend/app/main.py:26 | de-duplication keeps exactly the same origins, each once |
| Origins.DedupDistinct | aspy_backend/app/main.py:26 | a list without duplicates is unchanged |
| Origins.DefaultsDistinct | aspy_backend/app/main.py:16-24 | the built-in origins are distinct |
| Origins.AllowedOriginsShape | aspy_backend/app/main.py:16-26 | the built-ins come first in order; every built-in and configured origin is listed, none twice, and nothing else |
| Origins.UnsetVariableGivesDefaults | aspy_backend/app/main.py:25-26 | without the variable only the built-ins are allowed |
| Seeds.SeedPlan | aspy_backend/seed_plans.py:55-63 | a plan is inserted only when no plan has its type |
| Seeds.SeedPlans | aspy_backend/seed_plans.py:19-67 | the loop plus one commit gives the specified plans, or nothing when the commit fails |
| Seeds.SeedPlansAppends | aspy_backend/seed_plans.py:55-63 | existing plans are never modified; only plans are appended |
| Seeds.SeedPlansCoverTypes | aspy_backend/seed_plans.py:55-63 | afterwards every seeded type has a plan |
| Seeds.SeedPlansSkipsPresent | aspy_backend/seed_plans.py:57-59 | when every type is present nothing is inserted |
| Seeds.SeedPlansTwoSteps | aspy_backend/seed_plans.py:22-63 | the run is the Free step followed by the Pro step |
| Seeds.FreeSeedKeepsPro | aspy_backend/seed_plans.py:55-59 | the Free step does not change whether a PRO plan exists |
| Seeds.SeedPlansEffect | aspy_backend/seed_plans.py:19-67 | afterwards FREE and PRO plans exist, old plans are kept, and a second run inserts nothing |
| Seeds.SeedPlansInserts | aspy_backend/seed_plans.py:22-63 | exactly the Free (price 0) and Pro (price 49900) seeds whose type was absent are appended, in that order |
| Seeds.SeedLanguage | aspy_backend/seed_languages.py:21-25 | a language is inserted only when no row has its slug |
| Seeds.SeedLanguages | aspy_backend/seed_languages.py:10-27 | the loop plus one commit gives the specified languages, or nothing when the commit fails |
| Seeds.SeedLanguagesCover | aspy_backend/seed_languages.py:21-25 | old rows are kept, only languages are appended, and every seeded slug is present afterwards |
| Seeds.SeedLanguagesSkipsPresent | aspy_backend/seed_languages.py:21-25 | when every slug is present nothing is inserted |
| Seeds.SeedLanguagesEffect | aspy_backend/seed_languages.py:10-27 | the eight languages are present afterwards and a second run inserts nothing |
| EnumFixes.StatusRenamesMeaning | aspy_backend/fix_enum_values.py:29-43 | the four status UPDATEs in order map each listed lowercase value to its upper-case name and leave any other value |
| EnumFixes.PlanTypeRenamesMeaning | aspy_backend/fix_enum_values.py:64-76 | the two plan-type UPDATEs map `free`/`pro` to `FREE`/`PRO` and leave any other value |
| EnumFixes.FixesIdempotent | aspy_backend/fix_enum_values.py:29-76 | each rewrite is idempotent and leaves unlisted values unchanged |
| EnumFixes.RenameStatus | aspy_backend/fix_enum_values.py:38-40 | one UPDATE keeps every row and writes only the status column; rows not holding the old value are unchanged and rows holding it get the new one; for distinct values, the new value's count grows by the old value's count and no old value is left |
| EnumFixes.RenamePlanType | aspy_backend/fix_enum_values.py:71-73 | one UPDATE keeps every row and writes only the plan type column; rows not holding the old value are unchanged and rows holding it get the new one; for distinct values, the new value's count grows by the old value's count and no old value is left |
| EnumFixes.RenameUserType | aspy_backend/fix_user_type.py:26-35 | one UPDATE keeps every row and writes only the user type column; rows not holding the old value are unchanged and rows holding it get the new one; for distinct values, the new value's count grows by the old value's count and no old value is left |
| EnumFixes.RawDatabase.FixEnumValues | aspy_backend/fix_enum_values.py:8-104 | every status and plan type is rewritten, users are untouched, and an error rolls everything back |
| EnumFixes.RawDatabase.FixUserTypes | aspy_backend/fix_user_type.py:8-54 | `user`/`admin` become `USER`/`ADMIN`, nothing else changes, and an error rolls back |
| CreateAdmin.CreateAdminSpec | aspy_backend/create_admin.py:11-53 | a rolled-back run changes nothing |
| CreateAdmin.CreateAdminUser | aspy_backend/create_admin.py:11-53 | the method's outcome and committed state are those of the specification |
| CreateAdmin.CreateAdminEffects | aspy_backend/create_admin.py:17-51 | a non-admin gets only `user_type` = ADMIN; an existing admin is left alone; a new email gets exactly one active superuser admin row with the hashed password; a failed commit changes nothing |
| CreateAdmin.CreateAdminIdempotent | aspy_backend/create_admin.py:15-28 | afterwards the first user with that email is an admin, and a second run changes nothing |
| CreateAdmin.RunScriptSpec | aspy_backend/create_admin.py:55-67 | a blank answer stops the script with nothing written |
| CreateAdmin.RunScript | aspy_backend/create_admin.py:55-67 | the script's outcome and committed state are those of the specification |
| CreateAdmin.BlankFieldsStop | aspy_backend/create_admin.py:63-65 | the script stops before the database exactly when a stripped answer is empty |
| CleanupPlans.NamedIndex | aspy_backend/cleanup_plans.py:30 | the lookup by name finds the first plan with that name, and none exactly when none exists |
| CleanupPlans.Retarget | aspy_backend/cleanup_plans.py:110-113 | the bulk UPDATE keeps every row and writes only `plan_id`; exactly the subscriptions on one plan move to the other, which gains all of them, and none is left on the first |
| CleanupPlans.DeleteFrom | aspy_backend/cleanup_plans.py:125-130 | deleting plans never adds a plan |
| CleanupPlans.EnsurePlans | aspy_backend/cleanup_plans.py:26-100 | stage 1 commits the Free and Pro steps together, or rolls back to the start |
| CleanupPlans.AddOrUpdateFree | aspy_backend/cleanup_plans.py:30-62 | the Free step on the session: exactly the specified insert or update, nothing committed, and the Free plan's id returned |
| CleanupPlans.AddOrUpdatePro | aspy_backend/cleanup_plans.py:65-98 | the Pro step on the session: exactly the specified insert or update, nothing committed |
| CleanupPlans.MigrateSubscriptions | aspy_backend/cleanup_plans.py:102-120 | the loop of stage 2 gives the specified subscriptions and commits them, or rolls back |
| CleanupPlans.DeleteRetiredPlans | aspy_backend/cleanup_plans.py:122-135 | the loop of stage 3 deletes the retired plans, counts the deletions and commits, or rolls back |
| CleanupPlans.CleanupOldPlans | aspy_backend/cleanup_plans.py:19-155 | the script's outcome and committed state are those of the specification, stage by stage, including the listing that raises after the last commit |
| CleanupPlans.ListPlans | aspy_backend/cleanup_plans.py:141-147 | the closing listing gets through exactly when every plan has a type; it writes nothing |
| CleanupPlans.EnsureFree | aspy_backend/cleanup_plans.py:30-62 | only the plans table and the id counter change, and it grows by one exactly when no plan is named Free |
| CleanupPlans.EnsurePro | aspy_backend/cleanup_plans.py:65-98 | only the plans table and the id counter change, and it grows by one exactly when no plan is named Pro |
| CleanupPlans.MigrateFrom | aspy_backend/cleanup_plans.py:104-115 | the migration writes only `plan_id` of subscriptions, keeps every row, and every subscription it changes ends on Free |
| CleanupPlans.CleanupSpec | aspy_backend/cleanup_plans.py:19-155 | the script writes only plans, subscriptions and the id counter; a failed stage 1 leaves the database as it was; after the three commits the run ends in an exception exactly when a remaining plan has no type |
| CleanupPlans.EnsureFreeEffect | aspy_backend/cleanup_plans.py:30-62 | afterwards a plan named Free has type FREE; a new one costs 0 and an existing one keeps its price; other plans are untouched |
| CleanupPlans.EnsureProEffect | aspy_backend/cleanup_plans.py:65-98 | afterwards a plan named Pro has type PRO and price 49900, created or updated; other plans are untouched |
| CleanupPlans.NamedIndexKept | aspy_backend/cleanup_plans.py:30-98 | changing one named plan leaves the lookups of every other name alone |
| CleanupPlans.RetiredIdsKept | aspy_backend/cleanup_plans.py:104-108 | stage 1 does not change which plan ids are retired |
| CleanupPlans.MigrateEffect | aspy_backend/cleanup_plans.py:104-115 | every subscription on a retired plan moves to Free; all others, and all other tables, are unchanged |
| CleanupPlans.MigrateKeepsConsistent | aspy_backend/cleanup_plans.py:120 | stage 2's commit cannot fail on a consistent database |
| CleanupPlans.DeleteStepEffect | aspy_backend/cleanup_plans.py:125-130 | one deletion removes exactly the plan with that name |
| CleanupPlans.DeleteEffect | aspy_backend/cleanup_plans.py:122-135 | afterwards the plans are exactly the old ones without a retired name; uniqueness is kept; no other table changes |
| CleanupPlans.OnlyStageOneAborts | aspy_backend/cleanup_plans.py:100-155 | once stage 1 has committed, stages 2 and 3 cannot fail; a failed run stops in stage 1 with nothing changed |
| CleanupPlans.StageOneKeepsRetiredIds | aspy_backend/cleanup_plans.py:26-108 | the retired plans stage 2 looks up are those of the original table |
| CleanupPlans.CleanupLeavesPlans | aspy_backend/cleanup_plans.py:30-135 | a run whose three stages commit leaves Free (FREE, original or zero price) and Pro (PRO, 49900), no retired plan, and every other plan |
| CleanupPlans.CleanupMovesSubscriptions | aspy_backend/cleanup_plans.py:104-120 | a run whose three stages commit moves exactly the subscriptions on retired plans to Free and changes no other table |
| CleanupPlans.RetiredPlanIsLookedUp | aspy_backend/cleanup_plans.py:106-108 | every retired plan is found by its name |
| CleanupPlans.FreeIdIsOwn | aspy_backend/cleanup_plans.py:30-62 | with fresh ids, the Free plan's id is no other plan's id |
| CleanupPlans.NoSubscriptionOnDeletedPlan | aspy_backend/cleanup_plans.py:104-135 | with fresh plan ids, once the three stages commit, no subscription refers to a deleted plan afterwards |
| CleanupPlans.EnsureKeepsUnique | aspy_backend/cleanup_plans.py:30-98 | inserting or updating one named plan keeps plan names and types unique |
| CleanupPlans.EnsureFreeConsistent | aspy_backend/cleanup_plans.py:30-62 | the Free step keeps a consistent database consistent when only Free is FREE |
| CleanupPlans.EnsureProConsistent | aspy_backend/cleanup_plans.py:65-98 | the Pro step keeps a consistent database consistent when only Pro is PRO |
| CleanupPlans.CleanupCommits | aspy_backend/cleanup_plans.py:26-135 | on a consistent database where only Free is FREE and only Pro is PRO, all three stages commit, as long as no foreign key is enforced |
| CleanupPlans.StageOneUntyped | aspy_backend/cleanup_plans.py:30-100 | after stage 1 a plan without a type is an original plan other than Free and Pro |
| CleanupPlans.StageOneKeepsOthers | aspy_backend/cleanup_plans.py:30-100 | stage 1 keeps every plan not named Free or Pro |
| CleanupPlans.UntypedKept | aspy_backend/cleanup_plans.py:30-100 | an upsert that types every row of its name leaves untyped only earlier rows of other names |
| CleanupPlans.UntypedPlansRemaining | aspy_backend/cleanup_plans.py:122-135 | given what stage 1 keeps, after the deletions some plan lacks a type exactly when an original untyped plan is named neither Free, Pro nor a retired name |
| CleanupPlans.UntypedAmong | aspy_backend/cleanup_plans.py:141-147 | the listing of the remaining plans raises exactly when an original untyped plan survived under a name other than Free, Pro and the retired ones |
| CleanupPlans.ListingFailsOnUntypedPlan | aspy_backend/cleanup_plans.py:135-155 | once the three stages commit, the script raises from the listing exactly when the original table held an untyped plan that is neither Free, Pro nor retired |
| CleanupPlans.CleanupSucceeds | aspy_backend/cleanup_plans.py:26-155 | on a consistent database where only Free is FREE, only Pro is PRO and every plan that stays has a type, the run completes, listing included, as long as no foreign key is enforced |

## Left out

- The Razorpay SDK is not modelled; each call (customer, subscription, payment, invoice fetch, cancel) is an oracle parameter that returns or raises. The HMAC signature algorithm is a three-valued parameter: ok, mismatch, or another error.
- The OpenAI translation and `exec` of the generated code are parameters: the translation's answer or error, and what `exec` did (the text it printed, or an escape such as `SystemExit`). The stdout redirection is not modelled.
- Execution.ExecuteSpec: generated code that never terminates is not modelled; in the source such a request never answers and records nothing. A response whose content is None raises inside the try; the model folds this into the raised case.
- The identity providers' HTTP calls, `jose.jwt` decoding, `hash_password`/`verify_password`, `create_access_token` and `secrets.token_*` are parameters or opaque functions. The token is the pair (email, user).
- Plan features are an already parsed ordered map; `json.loads` is not modelled. Feature values are booleans, integers, strings or null; floats, lists and nested objects, which `f"{value}"` would print in Python's own notation, are not represented.
- Floating point is not modelled: amounts are exact `real` rupees, and prices are integer paise.
- The clock is a `Time` parameter counted in seconds.
- `ilike` is modelled as a case-insensitive substring match; `%` and `_` typed into the search term are not treated as wildcards. Case folding is ASCII only.
- Whitespace for `strip()` is the ten ASCII characters Python strips (space, tab, line feed, carriage return, vertical tab, form feed and 0x1C-0x1F); non-ASCII whitespace is not modelled.
- When several rows tie on `created_at` in an `order_by ... desc`, the model fixes one order. The source leaves ties to the database.
- Concurrency is not modelled. Closing a session without a commit is modelled as a rollback.
- Foreign keys and primary-key uniqueness are not constraints of the model; `CleanupPlans.NoSubscriptionOnDeletedPlan` assumes fresh plan ids for that reason.
- Only constraint violations make `commit`/`flush` raise. A lost connection or a similar database error inside a script is not modelled, so `CleanupPlans.OnlyStageOneAborts` holds only for the modelled failures.
- Logging is left out: `print` and traceback output, and the counters that are only printed (`total_migrated` in the cleanup, the row counts of the enum repairs). The plan listing at aspy_backend/cleanup_plans.py:141-147 is modelled only for whether it raises (`CleanupPlans.ListPlans`), since a plan with a NULL type makes it raise after the last commit.
- Models.Plan: `price` is assumed non-NULL, although `Column(Integer)` at aspy_backend/app/models/subscription.py:24 allows NULL; no modelled write stores NULL. A NULL price would raise a TypeError at aspy_backend/app/api/v1/execution.py:64 and aspy_backend/app/api/v1/certificates.py:31 (a 500 instead of a decision), at aspy_backend/app/api/v1/payments.py:128 in a live subscription create, and in the cleanup listing at aspy_backend/cleanup_plans.py:143.
- The verify endpoint's optional `subscription.fetch` (aspy_backend/app/api/v1/payments.py:197-201) is left out: its result is never used.
- `get_payment_methods` (aspy_backend/app/api/v1/payments.py:363-380) returns a constant, and `get_all_languages`, `get_current_user_info` and `get_user_stats` only read. They are not modelled.
- The user model file is not part of this model. The User row's fields are inferred from their uses in the endpoints and scripts.
- Middleware wiring, router registration, Alembic migrations, the pydantic schemas and the live gateway smoke test are not modelled.
- Admin.DeleteUserSpec: `db.delete(user)` goes through the ORM, and the user's subscriptions, invoices and payments are related to it (aspy_backend/app/models/subscription.py:52, invoice.py:22, payment.py:35). Whether the ORM nulls their `user_id` or deletes them depends on the cascade declared in the user model, which is not part of this model. The model removes only the users row and leaves those dependent rows as they were.
- Admin.DeleteUser: inherits the gap of `Admin.DeleteUserSpec`: the writes the ORM makes to the deleted user's dependent rows are not modelled.
- Execution.UnlimitedIffPaidActive: the lemma needs at most one ACTIVE subscription per user. The table has no such constraint (`Models.SeveralSubscriptionsPerUser`), and no lemma shows that the endpoints keep it. With two ACTIVE subscriptions, the decision follows the first row in table order, as `.first()` does.
- CleanupPlans.CleanupSucceeds: foreign keys are not modelled, and `invoices.plan_id` references `plans` (aspy_backend/app/models/invoice.py:18). Stage 2 moves only subscriptions off the retired plans (aspy_backend/cleanup_plans.py:110-113), so on a database that enforces the key, a retired plan that has an invoice makes the stage 3 delete fail at its commit. The lemma's promise that the run completes holds only without that key. Leaving invoices on a retired plan looks like a defect in the script.
- Certificates.GetUserCertificates: the `now` fallback for `issued_at` is never taken (proved in `Certificates.CertificatesMeaning`), so the clock only reaches the reply through that dead branch.

## Where the model follows the code

- **Verify.** Every failure in verify, including "invoice not found" (404) and "invalid signature" (400), is raised inside the outer `try`. The catch-all turns it into a 500 with a rollback, and the model does the same. The `SignatureVerificationError` clause at lines 316-318 cannot be reached, because line 185 already catches that exception.
- **Flush and commit.** The explicit flushes in verify and the query autoflush in the cleanup's stage 1 raise exactly when the later commit would. The model checks the constraints at those points and rolls back as the `except` does.
- **Renewal.** A renewal overwrites the user's subscription but keeps its id, its `cancel_at_period_end` and its `cancelled_at`.
- **Mock card payments.** A mock payment has method `card` but carries no card details, so it clears the card columns.
- **Ids.** One id counter serves all tables. Ids are only compared for equality.
- **Google name.** Google's answer always replaces the request's name. A profile without a `name` key gives "Google User". A profile with `name: null` gives no name, so a new account's username becomes `user_` and the random suffix.
