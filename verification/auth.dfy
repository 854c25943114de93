/**
 * Accounts (aspy_backend/app/api/v1/auth.py): registration, password login,
 * the active-user gate, and social sign-in, which turns a provider's answer
 * into an email and a name and then signs in the user with that email or
 * creates one. A new account gets an ACTIVE subscription on the FREE plan
 * when that plan exists.
 *
 * The provider's HTTP answers, password hashing and checking, random values
 * and token signing are outside the model: they are parameters.
 */
module Auth {
  import opened Common
  import opened Models
  import opened Store
  import Text

  datatype AuthCause =
    | EmailTaken
    | UsernameTaken
    | BadCredentials
    | Inactive
    | ProviderRejected
    | ProviderNotConfigured
    | EmailRequired
    | CommitFailed

  /** The claims of the access token handed out (`sub` is the email), with
      the user the reply describes. */
  datatype Token = Token(sub: string, userId: int, user: User)

  function TokenFor(u: User): Token
  {
    Token(u.email, u.id, u)
  }

  predicate HasEmail(u: User, email: string)
  {
    u.email == email
  }

  predicate HasUsername(u: User, username: string)
  {
    u.username == username
  }

  predicate IsFreePlan(p: Plan)
  {
    p.planType == Some(FREE)
  }

  /** A user row as the code inserts it: active, not a superuser, of type
      USER, with no gateway customer yet. */
  function NewUser(id: int, username: string, email: string, passwordHash: string, now: Time): User
  {
    User(id, username, email, passwordHash, true, false, USER, None, now)
  }

  // ---------------------------------------------------------------------
  // Account creation shared by register (lines 205-228) and social sign-in
  // (lines 141-169): insert the user and commit, then add a FREE-plan
  // subscription when a FREE plan exists and commit again.
  // ---------------------------------------------------------------------

  function CreateAccount(t: Tables, username: string, email: string, passwordHash: string, now: Time): (r: Response<User, AuthCause>)
    ensures r.reply.Fail? ==> r.reply.status == 500
    ensures Consistent(t) ==> r.reply.Ok? && Consistent(r.tables)
  {
    var u := NewUser(t.nextId, username, email, passwordHash, now);
    var t1 := t.(users := t.users + [u], nextId := t.nextId + 1);
    if !Consistent(t1) then Response(Fail(500, CommitFailed), t)
    else
      match First(t1.plans, IsFreePlan)
      case None => Response(Ok(u), t1)
      case Some(free) =>
        var t2 := t1.(subscriptions := t1.subscriptions + [NewSubscription(t1.nextId, u.id, free.id, ACTIVE, None, Some(now), None, now)],
                      nextId := t1.nextId + 1);
        if Consistent(t2) then Response(Ok(u), t2) else Response(Fail(500, CommitFailed), t1)
  }

  method CreateAccountOn(s: Session, username: string, email: string, passwordHash: string, now: Time)
    returns (reply: Reply<User, AuthCause>)
    requires s.Idle()
    modifies s
    ensures var r := CreateAccount(old(s.db), username, email, passwordHash, now);
      reply == r.reply && s.db == r.tables && s.committed == r.tables
  {
    var u := NewUser(s.db.nextId, username, email, passwordHash, now);
    s.db := s.db.(users := s.db.users + [u], nextId := s.db.nextId + 1);
    var ok := s.Commit();
    if !ok {
      s.Rollback();
      return Fail(500, CommitFailed);
    }
    var free := First(s.db.plans, IsFreePlan);
    if free.Some? {
      s.db := s.db.(subscriptions := s.db.subscriptions + [NewSubscription(s.db.nextId, u.id, free.value.id, ACTIVE, None, Some(now), None, now)],
                    nextId := s.db.nextId + 1);
      ok := s.Commit();
      if !ok {
        s.Rollback();
        return Fail(500, CommitFailed);
      }
    }
    reply := Ok(u);
  }

  /** A created account is one new active USER row with the given username,
      email and password hash, and, exactly when a FREE plan exists, one new
      ACTIVE subscription on it that starts now and has no end; payments,
      invoices and plans do not change. */
  lemma CreateAccountAddsUser(t: Tables, username: string, email: string, passwordHash: string, now: Time)
    ensures var r := CreateAccount(t, username, email, passwordHash, now);
      r.reply.Ok? ==>
        var u := r.reply.value;
        && r.tables.users == t.users + [u]
        && u.id == t.nextId && u.username == username && u.email == email && u.password == passwordHash
        && u.isActive && !u.isSuperuser && u.userType == USER && u.razorpayCustomerId.None?
        && r.tables.plans == t.plans && r.tables.payments == t.payments && r.tables.invoices == t.invoices
        && (First(t.plans, IsFreePlan).None? ==> r.tables.subscriptions == t.subscriptions)
        && (First(t.plans, IsFreePlan).Some? ==>
              && |r.tables.subscriptions| == |t.subscriptions| + 1
              && r.tables.subscriptions[..|t.subscriptions|] == t.subscriptions
              && var sub := r.tables.subscriptions[|t.subscriptions|];
              && sub.userId == u.id && sub.planId == First(t.plans, IsFreePlan).value.id
              && sub.status == ACTIVE && sub.periodStart == Some(now) && sub.periodEnd.None?
              && sub.razorpaySubscriptionId.None? && !sub.cancelAtPeriodEnd)
  {
    var r := CreateAccount(t, username, email, passwordHash, now);
    if r.reply.Ok? && First(t.plans, IsFreePlan).Some? {
      assert r.tables.subscriptions[..|t.subscriptions|] == t.subscriptions;
    }
  }

  // ---------------------------------------------------------------------
  // register_user (lines 186-244)
  // ---------------------------------------------------------------------

  datatype Registration = Registration(username: string, email: string, password: string)

  /** `passwordHash` is `hash_password(request.password)`. */
  function RegisterSpec(t: Tables, req: Registration, passwordHash: string, now: Time): (r: Response<Token, AuthCause>)
    ensures Consistent(t) ==> Consistent(r.tables)
  {
    if First(t.users, (u: User) => HasEmail(u, req.email)).Some? then Response(Fail(400, EmailTaken), t)
    else if First(t.users, (u: User) => HasUsername(u, req.username)).Some? then Response(Fail(400, UsernameTaken), t)
    else
      var c := CreateAccount(t, req.username, req.email, passwordHash, now);
      match c.reply
      case Ok(u) => Response(Ok(TokenFor(u)), c.tables)
      case Fail(status, cause) => Response(Fail(status, cause), c.tables)
  }

  method RegisterUser(s: Session, req: Registration, passwordHash: string, now: Time)
    returns (reply: Reply<Token, AuthCause>)
    requires s.Idle()
    modifies s
    ensures var r := RegisterSpec(old(s.db), req, passwordHash, now);
      reply == r.reply && s.db == r.tables && s.committed == r.tables
  {
    if First(s.db.users, (u: User) => HasEmail(u, req.email)).Some? {
      return Fail(400, EmailTaken);
    }
    if First(s.db.users, (u: User) => HasUsername(u, req.username)).Some? {
      return Fail(400, UsernameTaken);
    }
    var created := CreateAccountOn(s, req.username, req.email, passwordHash, now);
    reply := if created.Ok? then Ok(TokenFor(created.value)) else Fail(created.status, created.cause);
  }

  /** A taken email is refused first, then a taken username; neither refusal
      writes anything. */
  lemma RegisterRejectsDuplicates(t: Tables, req: Registration, passwordHash: string, now: Time)
    ensures var r := RegisterSpec(t, req, passwordHash, now);
      && ((exists k :: 0 <= k < |t.users| && t.users[k].email == req.email) ==> r == Response(Fail(400, EmailTaken), t))
      && (((forall k :: 0 <= k < |t.users| ==> t.users[k].email != req.email) &&
           (exists k :: 0 <= k < |t.users| && t.users[k].username == req.username)) ==>
          r == Response(Fail(400, UsernameTaken), t))
  {
  }

  /** A registration that passes both checks creates the account and returns
      a token for the new user; on a consistent database it always
      succeeds. */
  lemma RegisterCreatesAccount(t: Tables, req: Registration, passwordHash: string, now: Time)
    requires forall k :: 0 <= k < |t.users| ==> t.users[k].email != req.email && t.users[k].username != req.username
    ensures var r := RegisterSpec(t, req, passwordHash, now);
      var c := CreateAccount(t, req.username, req.email, passwordHash, now);
      && r.tables == c.tables
      && (Consistent(t) ==> r.reply.Ok?)
      && (r.reply.Ok? ==> r.reply.value == TokenFor(c.reply.value) && r.reply.value.user.isActive
                          && r.reply.value.sub == req.email)
  {
    CreateAccountAddsUser(t, req.username, req.email, passwordHash, now);
  }

  // ---------------------------------------------------------------------
  // login_user (lines 246-282) and get_current_active_user (lines 302-305)
  // ---------------------------------------------------------------------

  /** `passwordMatches(plain, hash)` is `verify_password`. */
  function LoginSpec(t: Tables, email: string, password: string, passwordMatches: (string, string) -> bool)
    : (r: Reply<Token, AuthCause>)
    ensures r.Fail? ==> r == Fail(401, BadCredentials) || r == Fail(403, Inactive)
    ensures r.Ok? ==> && r.value.user in t.users && r.value.user.email == email && r.value.sub == email
                      && r.value.user.isActive && passwordMatches(password, r.value.user.password)
  {
    match First(t.users, (u: User) => HasEmail(u, email))
    case None => Fail(401, BadCredentials)
    case Some(u) =>
      if !passwordMatches(password, u.password) then Fail(401, BadCredentials)
      else if !u.isActive then Fail(403, Inactive)
      else Ok(TokenFor(u))
  }

  /** Login does not tell an unknown email from a wrong password, reports an
      inactive account only to someone who knows its password, and succeeds
      exactly for an active user whose password matches. */
  lemma LoginDecisionOrder(t: Tables, email: string, password: string, passwordMatches: (string, string) -> bool)
    ensures var r := LoginSpec(t, email, password, passwordMatches);
      var found := First(t.users, (u: User) => HasEmail(u, email));
      && (found.None? ==> r == Fail(401, BadCredentials))
      && (found.Some? && !passwordMatches(password, found.value.password) ==> r == Fail(401, BadCredentials))
      && (r == Fail(403, Inactive) <==> found.Some? && passwordMatches(password, found.value.password) && !found.value.isActive)
      && (r.Ok? <==> found.Some? && passwordMatches(password, found.value.password) && found.value.isActive)
      && (r.Ok? ==> r.value.user == found.value && r.value.sub == email)
  {
  }

  /** `get_current_active_user`: an inactive user is refused with 400. */
  function ActiveUser(u: User): (r: Reply<User, AuthCause>)
    ensures r.Ok? <==> u.isActive
    ensures r.Ok? ==> r.value == u
    ensures r.Fail? ==> r == Fail(400, Inactive)
  {
    if !u.isActive then Fail(400, Inactive) else Ok(u)
  }

  // ---------------------------------------------------------------------
  // social_login (lines 15-184)
  // ---------------------------------------------------------------------

  datatype SocialRequest = SocialRequest(
    provider: string,
    email: Option<string>,
    name: Option<string>,
    token: Option<string>,
    code: Option<string>)

  /** An entry of a JSON object: absent, present with `null`, or a string. */
  datatype JsonEntry = Missing | Null | Given(value: string)

  /** Google's userinfo answer: its status, and its `email` and `name`
      entries (`dict.get` makes an absent or null email None). */
  datatype GoogleInfo = GoogleInfo(status: int, email: Option<string>, name: JsonEntry)

  /** GitHub's token exchange: its status and its `access_token` entry. */
  datatype TokenExchange = TokenExchange(status: int, accessToken: Option<string>)

  datatype GitHubUser = GitHubUser(email: Option<string>, name: Option<string>, login: Option<string>)

  datatype GitHubEmail = GitHubEmail(email: Option<string>, primary: bool, verified: bool)

  /** The `/user/emails` answer: its status and the list it holds. */
  datatype EmailList = EmailList(status: int, emails: seq<GitHubEmail>)

  /** The `email` claim of a verified Apple identity token. */
  datatype ApplePayload = ApplePayload(email: Option<string>)

  /** Everything the providers answer; each request may raise. Only the
      answers the request's path asks for are used. */
  datatype ProviderAnswers = ProviderAnswers(
    google: Call<GoogleInfo>,
    githubConfigured: bool,
    githubToken: Call<TokenExchange>,
    githubUser: Call<GitHubUser>,
    githubEmails: Call<EmailList>,
    apple: Call<ApplePayload>)

  /** The email and name the sign-in goes on with. */
  datatype Identity = Identity(email: Option<string>, name: Option<string>)

  predicate IsPrimaryVerified(e: GitHubEmail)
  {
    e.primary && e.verified
  }

  /** Lines 84-89: the first primary and verified entry's email; when that
      leaves no email, the first entry's. The result is the prior email or
      one from the list. */
  function GitHubEmailChoice(prior: Option<string>, emails: seq<GitHubEmail>): (r: Option<string>)
    ensures r == prior || exists k :: 0 <= k < |emails| && r == emails[k].email
    ensures |emails| == 0 ==> r == prior
  {
    var chosen := match FirstIndex(emails, IsPrimaryVerified)
                  case Some(i) => emails[i].email
                  case None => prior;
    if !Truthy(chosen) && |emails| > 0 then emails[0].email else chosen
  }

  /** The loop of lines 84-89, which stops at the first primary and verified
      entry. */
  method ChooseGitHubEmail(prior: Option<string>, emails: seq<GitHubEmail>) returns (email: Option<string>)
    ensures email == GitHubEmailChoice(prior, emails)
  {
    email := prior;
    var i := 0;
    while i < |emails|
      invariant 0 <= i <= |emails|
      invariant forall k :: 0 <= k < i ==> !IsPrimaryVerified(emails[k])
      invariant email == prior
    {
      if IsPrimaryVerified(emails[i]) {
        email := emails[i].email;
        break;
      }
      i := i + 1;
    }
    if !Truthy(email) && |emails| > 0 {
      email := emails[0].email;
    }
  }

  /** The choice in plain words: the first entry that is primary and
      verified wins when it has an email, and when it has none the first
      entry's email is taken; without such an entry the prior email stays
      when there is one, and otherwise the first entry's is taken; an empty
      list leaves the email as it was. */
  lemma GitHubEmailChoiceMeaning(prior: Option<string>, emails: seq<GitHubEmail>, i: nat)
    ensures |emails| == 0 ==> GitHubEmailChoice(prior, emails) == prior
    ensures (i < |emails| && IsPrimaryVerified(emails[i]) && (forall k :: 0 <= k < i ==> !IsPrimaryVerified(emails[k]))
             && Truthy(emails[i].email)) ==> GitHubEmailChoice(prior, emails) == emails[i].email
    ensures (i < |emails| && IsPrimaryVerified(emails[i]) && (forall k :: 0 <= k < i ==> !IsPrimaryVerified(emails[k]))
             && !Truthy(emails[i].email)) ==> GitHubEmailChoice(prior, emails) == emails[0].email
    ensures |emails| > 0 && (forall k :: 0 <= k < |emails| ==> !IsPrimaryVerified(emails[k])) && !Truthy(prior) ==>
            GitHubEmailChoice(prior, emails) == emails[0].email
    ensures (forall k :: 0 <= k < |emails| ==> !IsPrimaryVerified(emails[k])) && Truthy(prior) ==>
            GitHubEmailChoice(prior, emails) == prior
  {
    if i < |emails| && IsPrimaryVerified(emails[i]) && (forall k :: 0 <= k < i ==> !IsPrimaryVerified(emails[k])) {
      assert FirstIndex(emails, IsPrimaryVerified) == Some(i);
    }
  }

  /** Google (lines 20-37): a non-200 status, a missing email (whose 400 is
      caught by the same handler) and any raised error all end in 401. On
      success Google's email replaces the request's, and so does its name:
      "Google User" when the entry is absent, none when it is null. */
  function GoogleIdentity(req: SocialRequest, answer: Call<GoogleInfo>): (r: Reply<Identity, AuthCause>)
    ensures r.Fail? ==> r == Fail(401, ProviderRejected)
    ensures r.Ok? <==> answer.Returned? && answer.value.status == 200 && Truthy(answer.value.email)
    ensures r.Ok? ==> r.value.email == answer.value.email
    ensures r.Ok? && answer.value.name.Given? ==> r.value.name == Some(answer.value.name.value)
    ensures r.Ok? && answer.value.name.Missing? ==> r.value.name == Some("Google User")
    ensures r.Ok? && answer.value.name.Null? ==> r.value.name == None
  {
    if answer.Raised? || answer.value.status != 200 || !Truthy(answer.value.email) then Fail(401, ProviderRejected)
    else
      var name := match answer.value.name
                  case Missing => Some("Google User")
                  case Null => None
                  case Given(v) => Some(v);
      Ok(Identity(answer.value.email, name))
  }

  /** GitHub (lines 40-92), once the user is fetched: the profile's email,
      or the choice from the email list when the profile has none and the
      list is returned with status 200. */
  function GitHubIdentity(ans: ProviderAnswers): (r: Reply<Identity, AuthCause>)
    ensures r.Fail? ==> r == Fail(500, ProviderNotConfigured) || r == Fail(401, ProviderRejected)
    ensures r == Fail(500, ProviderNotConfigured) <==> !ans.githubConfigured
    ensures r.Ok? ==> && ans.githubUser.Returned?
                      && r.value.name == OrElse(ans.githubUser.value.name, ans.githubUser.value.login)
                      && (Truthy(ans.githubUser.value.email) ==> r.value.email == ans.githubUser.value.email)
  {
    if !ans.githubConfigured then Fail(500, ProviderNotConfigured)
    else if ans.githubToken.Raised? || ans.githubToken.value.status != 200 || !Truthy(ans.githubToken.value.accessToken) then
      Fail(401, ProviderRejected)
    else if ans.githubUser.Raised? then Fail(401, ProviderRejected)
    else
      var gu := ans.githubUser.value;
      var name := OrElse(gu.name, gu.login);
      if Truthy(gu.email) then Ok(Identity(gu.email, name))
      else if ans.githubEmails.Raised? then Fail(401, ProviderRejected)
      else if ans.githubEmails.value.status != 200 then Ok(Identity(gu.email, name))
      else Ok(Identity(GitHubEmailChoice(gu.email, ans.githubEmails.value.emails), name))
  }

  /** Apple (lines 95-134): a verified token's email replaces the request's;
      a missing name becomes "Apple User". */
  function AppleIdentity(req: SocialRequest, answer: Call<ApplePayload>): (r: Reply<Identity, AuthCause>)
    ensures r.Fail? <==> answer.Raised?
    ensures r.Fail? ==> r == Fail(401, ProviderRejected)
    ensures r.Ok? ==> Truthy(r.value.name)
    ensures r.Ok? && Truthy(answer.value.email) ==> r.value.email == answer.value.email
    ensures r.Ok? && !Truthy(answer.value.email) ==> r.value.email == req.email
  {
    if answer.Raised? then Fail(401, ProviderRejected)
    else Ok(Identity(if Truthy(answer.value.email) then answer.value.email else req.email,
                     if Truthy(req.name) then req.name else Some("Apple User")))
  }

  /** The provider step: the provider name is compared lower-cased, and a
      provider that is not recognised, or comes without its token or code,
      keeps the email and name the client sent. */
  function ProviderIdentity(req: SocialRequest, ans: ProviderAnswers): Reply<Identity, AuthCause>
  {
    var p := Text.Lower(req.provider);
    if p == "google" && Truthy(req.token) then GoogleIdentity(req, ans.google)
    else if p == "github" && Truthy(req.code) then GitHubIdentity(ans)
    else if p == "apple" && Truthy(req.token) then AppleIdentity(req, ans.apple)
    else Ok(Identity(req.email, req.name))
  }

  /** The provider step on the request: the GitHub email list is scanned by
      the loop. */
  method ResolveIdentity(req: SocialRequest, ans: ProviderAnswers) returns (r: Reply<Identity, AuthCause>)
    ensures r == ProviderIdentity(req, ans)
  {
    var p := Text.Lower(req.provider);
    if p == "github" && Truthy(req.code) {
      if !ans.githubConfigured {
        return Fail(500, ProviderNotConfigured);
      }
      if ans.githubToken.Raised? || ans.githubToken.value.status != 200 || !Truthy(ans.githubToken.value.accessToken) {
        return Fail(401, ProviderRejected);
      }
      if ans.githubUser.Raised? {
        return Fail(401, ProviderRejected);
      }
      var gu := ans.githubUser.value;
      var name := OrElse(gu.name, gu.login);
      var email := gu.email;
      if !Truthy(email) {
        if ans.githubEmails.Raised? {
          return Fail(401, ProviderRejected);
        }
        if ans.githubEmails.value.status == 200 {
          email := ChooseGitHubEmail(email, ans.githubEmails.value.emails);
        }
      }
      return Ok(Identity(email, name));
    }
    r := ProviderIdentity(req, ans);
  }

  /** The username of a new social account: the name (or "user") without
      spaces, lower-cased, then `_` and the random suffix. */
  function SocialUsername(name: Option<string>, suffix: string): (r: string)
    ensures |r| > |suffix| && r[|r| - |suffix| - 1] == '_' && r[|r| - |suffix|..] == suffix
    ensures ' ' !in suffix ==> ' ' !in r
  {
    var stripped := Text.ReplaceAll(if Truthy(name) then name.value else "user", " ", "");
    RemoveCharGone(if Truthy(name) then name.value else "user", ' ');
    LowerKeepsNoSpace(stripped);
    UsernameJoin(Text.Lower(stripped), suffix);
    Text.Lower(stripped) + "_" + suffix
  }

  /** `randomHex` is `secrets.token_hex(4)` and `passwordHash` the hash of
      `secrets.token_urlsafe(16)`. */
  function SocialLoginSpec(t: Tables, req: SocialRequest, ans: ProviderAnswers, randomHex: string,
                           passwordHash: string, now: Time): (r: Response<Token, AuthCause>)
    ensures Consistent(t) ==> Consistent(r.tables)
  {
    match ProviderIdentity(req, ans)
    case Fail(status, cause) => Response(Fail(status, cause), t)
    case Ok(id) => SignIn(t, id, randomHex, passwordHash, now)
  }

  /** Lines 136-184: an email is required; the user with that email signs
      in unchanged, or a new account is created. */
  function SignIn(t: Tables, id: Identity, randomHex: string, passwordHash: string, now: Time): (r: Response<Token, AuthCause>)
    ensures Consistent(t) ==> Consistent(r.tables)
  {
    if !Truthy(id.email) then Response(Fail(400, EmailRequired), t)
    else
      match First(t.users, (u: User) => HasEmail(u, id.email.value))
      case Some(u) => Response(Ok(TokenFor(u)), t)
      case None =>
        var c := CreateAccount(t, SocialUsername(id.name, randomHex), id.email.value, passwordHash, now);
        match c.reply
        case Ok(u) => Response(Ok(TokenFor(u)), c.tables)
        case Fail(status, cause) => Response(Fail(status, cause), c.tables)
  }

  method SocialLogin(s: Session, req: SocialRequest, ans: ProviderAnswers, randomHex: string,
                     passwordHash: string, now: Time) returns (reply: Reply<Token, AuthCause>)
    requires s.Idle()
    modifies s
    ensures var r := SocialLoginSpec(old(s.db), req, ans, randomHex, passwordHash, now);
      reply == r.reply && s.db == r.tables && s.committed == r.tables
  {
    var id := ResolveIdentity(req, ans);
    if id.Fail? {
      return Fail(id.status, id.cause);
    }
    var email := id.value.email;
    if !Truthy(email) {
      return Fail(400, EmailRequired);
    }
    var existing := First(s.db.users, (u: User) => HasEmail(u, email.value));
    if existing.Some? {
      return Ok(TokenFor(existing.value));
    }
    var created := CreateAccountOn(s, SocialUsername(id.value.name, randomHex), email.value, passwordHash, now);
    reply := if created.Ok? then Ok(TokenFor(created.value)) else Fail(created.status, created.cause);
  }

  // ---- properties of social sign-in ----

  /** The provider name is matched without regard to case. */
  lemma ProviderCaseInsensitive(req: SocialRequest, ans: ProviderAnswers, other: string)
    requires Text.Lower(other) == Text.Lower(req.provider)
    ensures ProviderIdentity(req.(provider := other), ans) == ProviderIdentity(req, ans)
  {
  }

  /** An unknown provider, or a known one without its token or code, is not
      checked at all: the client's email and name are used. */
  lemma UncheckedProviderTrustsClient(req: SocialRequest, ans: ProviderAnswers)
    requires Text.Lower(req.provider) !in {"google", "github", "apple"}
             || (Text.Lower(req.provider) in {"google", "apple"} && !Truthy(req.token))
             || (Text.Lower(req.provider) == "github" && !Truthy(req.code))
    ensures ProviderIdentity(req, ans) == Ok(Identity(req.email, req.name))
  {
  }

  /** Every failure on the Google path is a 401, including a Google account
      without an email. */
  lemma GoogleFailuresAre401(req: SocialRequest, ans: ProviderAnswers)
    requires Text.Lower(req.provider) == "google" && Truthy(req.token)
    ensures ProviderIdentity(req, ans).Fail? ==> ProviderIdentity(req, ans) == Fail(401, ProviderRejected)
    ensures ans.google.Returned? && ans.google.value.status == 200 && !Truthy(ans.google.value.email) ==>
            ProviderIdentity(req, ans) == Fail(401, ProviderRejected)
  {
  }

  /** Without an email after the provider step the request is refused with
      400 and no user is created. */
  lemma SocialLoginNeedsEmail(t: Tables, req: SocialRequest, ans: ProviderAnswers, randomHex: string,
                              passwordHash: string, now: Time)
    requires ProviderIdentity(req, ans).Ok? && !Truthy(ProviderIdentity(req, ans).value.email)
    ensures SocialLoginSpec(t, req, ans, randomHex, passwordHash, now) == Response(Fail(400, EmailRequired), t)
  {
  }

  /** A known email signs in the existing user, who is left unchanged along
      with every table. */
  lemma SocialLoginReusesUser(t: Tables, req: SocialRequest, ans: ProviderAnswers, randomHex: string,
                              passwordHash: string, now: Time, k: nat)
    requires ProviderIdentity(req, ans).Ok? && Truthy(ProviderIdentity(req, ans).value.email)
    requires k < |t.users| && t.users[k].email == ProviderIdentity(req, ans).value.email.value
    requires forall j :: 0 <= j < k ==> t.users[j].email != t.users[k].email
    ensures SocialLoginSpec(t, req, ans, randomHex, passwordHash, now) == Response(Ok(TokenFor(t.users[k])), t)
  {
    assert FirstIndex(t.users, (u: User) => HasEmail(u, t.users[k].email)) == Some(k);
  }

  /** A new social account's username is the lower-cased name without
      spaces, then `_` and the random suffix: it has no space when the
      suffix has none, and the name defaults to "user". */
  lemma SocialUsernameShape(name: Option<string>, suffix: string)
    ensures var u := SocialUsername(name, suffix);
      && Text.StartsWith(u, Text.Lower(Text.ReplaceAll(if Truthy(name) then name.value else "user", " ", "")) + "_")
      && u[|u| - |suffix|..] == suffix
      && (' ' !in suffix ==> ' ' !in u)
      && (!Truthy(name) ==> u == "user_" + suffix)
  {
    var base := if Truthy(name) then name.value else "user";
    UsernameJoin(Text.Lower(Text.ReplaceAll(base, " ", "")), suffix);
    if !Truthy(name) {
      DefaultNameKept();
    }
  }

  lemma LowerKeepsNoSpace(s: string)
    requires ' ' !in s
    ensures ' ' !in Text.Lower(s)
  {
    var low := Text.Lower(s);
    forall i | 0 <= i < |low|
      ensures low[i] != ' '
    {
      assert s[i] in s;
    }
  }

  /** `base + "_" + suffix` starts with `base + "_"`, ends with the suffix,
      and has a space only where one of its parts has. */
  lemma UsernameJoin(base: string, suffix: string)
    ensures var u := base + "_" + suffix;
      && Text.StartsWith(u, base + "_")
      && u[|u| - |suffix|..] == suffix
      && (' ' !in base && ' ' !in suffix ==> ' ' !in u)
  {
    var u := base + "_" + suffix;
    assert u == (base + "_") + suffix;
    assert u[..|base + "_"|] == base + "_";
  }

  /** The default name "user" survives the space removal and lower-casing. */
  lemma DefaultNameKept()
    ensures Text.Lower(Text.ReplaceAll("user", " ", "")) == "user"
  {
    NoSpaceUnchanged("user");
    var low := Text.Lower("user");
    assert forall i :: 0 <= i < |low| ==> low[i] == "user"[i];
  }

  lemma {:induction false} NoSpaceUnchanged(s: string)
    requires ' ' !in s
    ensures Text.ReplaceAll(s, " ", "") == s
    decreases |s|
  {
    if |s| > 0 {
      assert s[..1][0] == s[0];
      assert !Text.StartsWith(s, " ");
      NoSpaceUnchanged(s[1..]);
      assert [s[0]] + s[1..] == s;
    }
  }

  lemma {:induction false} RemoveCharGone(s: string, c: char)
    ensures c !in Text.ReplaceAll(s, [c], "")
    decreases |s|
  {
    if |s| > 0 {
      if Text.StartsWith(s, [c]) {
        RemoveCharGone(s[1..], c);
        assert s[|[c]|..] == s[1..];
      } else {
        RemoveCharGone(s[1..], c);
      }
    }
  }

  /** A Google profile whose name is null gives a new account the default
      username `user_<suffix>`. */
  lemma GoogleNullNameDefaults(req: SocialRequest, answer: Call<GoogleInfo>, suffix: string)
    requires GoogleIdentity(req, answer).Ok? && answer.value.name.Null?
    ensures SocialUsername(GoogleIdentity(req, answer).value.name, suffix) == "user_" + suffix
  {
    SocialUsernameShape(None, suffix);
  }

  /** A successful sign-in with a new email creates exactly the account that
      registration would create, under the social username. */
  lemma SocialLoginCreatesAccount(t: Tables, req: SocialRequest, ans: ProviderAnswers, randomHex: string,
                                  passwordHash: string, now: Time)
    requires ProviderIdentity(req, ans).Ok? && Truthy(ProviderIdentity(req, ans).value.email)
    requires forall k :: 0 <= k < |t.users| ==> t.users[k].email != ProviderIdentity(req, ans).value.email.value
    ensures var id := ProviderIdentity(req, ans).value;
      var r := SocialLoginSpec(t, req, ans, randomHex, passwordHash, now);
      var c := CreateAccount(t, SocialUsername(id.name, randomHex), id.email.value, passwordHash, now);
      r.tables == c.tables && (r.reply.Ok? <==> c.reply.Ok?)
  {
  }
}
