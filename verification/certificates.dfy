/**
 * The certificates a user has earned (aspy_backend/app/api/v1/certificates.py):
 * a user on a paid plan gets one certificate per language they have run
 * code in, dated by their first run in it.
 */
module Certificates {
  import opened Common
  import opened Models
  import opened Store
  import Text

  datatype Certificate = Certificate(id: string, language: string, slug: string, issuedAt: Time, downloadUrl: string)

  datatype CertificatesReply =
    | NotEligible(message: string)
    | Eligible(certificates: seq<Certificate>)

  const UpgradeMessage := "Upgrade to Pro to unlock certificates."

  /** The user's ACTIVE subscription (the first such row) has a plan that is
      PRO or costs something (lines 23-32); a user without an ACTIVE
      subscription has no access. */
  function HasAccess(t: Tables, userId: int): (r: bool)
    ensures r ==> exists k :: (0 <= k < |t.subscriptions| && IsActiveOf(t.subscriptions[k], userId)
      && FindPlan(t, t.subscriptions[k].planId).Some?
      && (FindPlan(t, t.subscriptions[k].planId).value.planType == Some(PRO) || FindPlan(t, t.subscriptions[k].planId).value.price > 0))
    ensures (forall k :: 0 <= k < |t.subscriptions| ==> !IsActiveOf(t.subscriptions[k], userId)) ==> !r
  {
    var active := ActiveSubscription(t, userId);
    assert active.Some? ==> active.value == t.subscriptions[ActiveSubscriptionIndex(t, userId).value];
    && active.Some?
    && var plan := FindPlan(t, active.value.planId);
       plan.Some? && (plan.value.planType == Some(PRO) || plan.value.price > 0)
  }

  predicate IsUseOf(e: CodeExecution, userId: int, languageId: int)
  {
    e.userId == userId && e.languageId == Some(languageId)
  }

  /** The language appears among the user's non-NULL `language_id`s. */
  predicate IsUsed(t: Tables, userId: int, l: Language)
  {
    exists k :: 0 <= k < |t.executions| && IsUseOf(t.executions[k], userId, l.id)
  }

  /** The earliest `created_at` among the runs that `p` selects. */
  function Earliest(es: seq<CodeExecution>, p: CodeExecution -> bool): (r: Option<Time>)
    ensures r.Some? ==> exists k :: 0 <= k < |es| && p(es[k]) && es[k].createdAt == r.value
    ensures r.Some? ==> forall k :: 0 <= k < |es| && p(es[k]) ==> r.value <= es[k].createdAt
    ensures r.None? <==> forall k :: 0 <= k < |es| ==> !p(es[k])
  {
    if |es| == 0 then None
    else
      var rest := Earliest(es[1..], p);
      assert forall k :: 1 <= k < |es| ==> es[k] == es[1..][k - 1];
      if !p(es[0]) then rest
      else if rest.Some? && rest.value < es[0].createdAt then rest
      else Some(es[0].createdAt)
  }

  function CertificateId(userId: int, slug: string): string
  {
    "cert_" + Text.IntToString(userId) + "_" + slug
  }

  /** The certificate for one used language: dated by the first run in it,
      or by `now` when there is none. */
  function CertificateFor(t: Tables, userId: int, l: Language, now: Time): Certificate
  {
    var first := Earliest(t.executions, (e: CodeExecution) => IsUseOf(e, userId, l.id));
    Certificate(CertificateId(userId, l.slug), l.name, l.slug, first.GetOr(now), "#")
  }

  /** The languages certified, in table order. */
  function UsedLanguages(t: Tables, userId: int): seq<Language>
  {
    Filter(t.languages, (l: Language) => IsUsed(t, userId, l))
  }

  /** The endpoint: checks access, then walks the languages table and issues
      a certificate for each language the user has run code in. */
  method GetUserCertificates(s: Session, userId: int, now: Time) returns (reply: CertificatesReply)
    ensures !HasAccess(s.db, userId) <==> reply == NotEligible(UpgradeMessage)
    ensures reply.Eligible? ==> Certifies(s.db, userId, now, reply.certificates, UsedLanguages(s.db, userId))
  {
    if !HasAccess(s.db, userId) {
      return NotEligible(UpgradeMessage);
    }
    var t := s.db;
    var certificates: seq<Certificate> := [];
    for i := 0 to |t.languages|
      invariant Certifies(t, userId, now, certificates, UsedLanguagesOf(t, userId, t.languages[..i]))
    {
      CertifyNext(t, userId, now, i, certificates);
      var l := t.languages[i];
      certificates := certificates + if IsUsed(t, userId, l) then [CertificateFor(t, userId, l, now)] else [];
    }
    assert t.languages[..|t.languages|] == t.languages;
    reply := Eligible(certificates);
  }

  /** One certificate per language of `used`, in the same order, each the
      certificate for that language. */
  predicate Certifies(t: Tables, userId: int, now: Time, certificates: seq<Certificate>, used: seq<Language>)
  {
    |certificates| == |used|
    && forall k :: 0 <= k < |used| ==> certificates[k] == CertificateFor(t, userId, used[k], now)
  }

  /** One step of the walk over the languages table. */
  lemma CertifyNext(t: Tables, userId: int, now: Time, i: nat, certificates: seq<Certificate>)
    requires i < |t.languages|
    requires Certifies(t, userId, now, certificates, UsedLanguagesOf(t, userId, t.languages[..i]))
    ensures var l := t.languages[i];
      Certifies(t, userId, now, certificates + if IsUsed(t, userId, l) then [CertificateFor(t, userId, l, now)] else [],
                UsedLanguagesOf(t, userId, t.languages[..i + 1]))
  {
    var l := t.languages[i];
    assert t.languages[..i + 1] == t.languages[..i] + [l];
    UsedLanguagesAppend(t, userId, t.languages[..i], l);
    var used := UsedLanguagesOf(t, userId, t.languages[..i]);
    if IsUsed(t, userId, l) {
      CertifiesSnoc(t, userId, now, certificates, used, l);
    } else {
      assert certificates + [] == certificates && used + [] == used;
    }
  }

  lemma CertifiesSnoc(t: Tables, userId: int, now: Time, certificates: seq<Certificate>, used: seq<Language>,
                      l: Language)
    requires Certifies(t, userId, now, certificates, used)
    ensures Certifies(t, userId, now, certificates + [CertificateFor(t, userId, l, now)], used + [l])
  {
  }

  function UsedLanguagesOf(t: Tables, userId: int, ls: seq<Language>): seq<Language>
  {
    Filter(ls, (l: Language) => IsUsed(t, userId, l))
  }

  lemma UsedLanguagesAppend(t: Tables, userId: int, ls: seq<Language>, l: Language)
    ensures UsedLanguagesOf(t, userId, ls + [l]) ==
      UsedLanguagesOf(t, userId, ls) + (if IsUsed(t, userId, l) then [l] else [])
  {
    FilterAppend(ls, [l], (x: Language) => IsUsed(t, userId, x));
    assert [l][1..] == [];
  }

  /** Each certificate is for a language the user ran code in, carries the
      id `cert_<user>_<slug>`, and is dated by the user's earliest run in
      that language; the `now` fallback is never taken. Every used language
      is certified. */
  lemma CertificatesMeaning(t: Tables, userId: int, now: Time)
    ensures forall l :: l in UsedLanguages(t, userId) ==>
      && l in t.languages && IsUsed(t, userId, l)
      && CertificateFor(t, userId, l, now).id == "cert_" + Text.IntToString(userId) + "_" + l.slug
      && (exists k :: 0 <= k < |t.executions| && IsUseOf(t.executions[k], userId, l.id)
                      && t.executions[k].createdAt == CertificateFor(t, userId, l, now).issuedAt)
      && (forall k :: 0 <= k < |t.executions| && IsUseOf(t.executions[k], userId, l.id) ==>
                      CertificateFor(t, userId, l, now).issuedAt <= t.executions[k].createdAt)
    ensures forall k :: 0 <= k < |t.languages| && IsUsed(t, userId, t.languages[k]) ==> t.languages[k] in UsedLanguages(t, userId)
  {
    forall l | l in UsedLanguages(t, userId)
      ensures Earliest(t.executions, (e: CodeExecution) => IsUseOf(e, userId, l.id)).Some?
    {
      var k :| 0 <= k < |t.executions| && IsUseOf(t.executions[k], userId, l.id);
    }
  }

  /** A user with no run in a known language earns no certificate. */
  lemma NoRunsNoCertificates(t: Tables, userId: int)
    requires forall k :: 0 <= k < |t.executions| ==> t.executions[k].userId != userId || t.executions[k].languageId.None?
    ensures UsedLanguages(t, userId) == []
  {
    FilterNone(t.languages, (l: Language) => IsUsed(t, userId, l));
  }

  /** A PRO plan grants access even at price 0, and a paid plan grants it
      whatever its type; a FREE plan at price 0 does not. */
  lemma AccessByPlan(t: Tables, userId: int)
    requires ActiveSubscription(t, userId).Some?
    requires FindPlan(t, ActiveSubscription(t, userId).value.planId).Some?
    ensures var plan := FindPlan(t, ActiveSubscription(t, userId).value.planId).value;
      HasAccess(t, userId) <==> plan.planType == Some(PRO) || plan.price > 0
  {
  }
}
