/**
 * Running a user's code (aspy_backend/app/api/v1/execution.py): the free-plan
 * limit, the translation of the request into Python by a language model, the
 * banned-substring screen in front of `exec`, and the CodeExecution row every
 * run that passes the limit leaves behind. The language model and `exec` are
 * outside the model: their answers are parameters.
 */
module Execution {
  import opened Common
  import opened Models
  import opened Store
  import Text

  // ---------------------------------------------------------------------
  // execute_python_safe (lines 20-45)
  // ---------------------------------------------------------------------

  const Banned: seq<string> :=
    ["import os", "import sys", "import subprocess", "__import__", "open(", "exec(", "eval("]

  const SecurityError := "Security Error: usage of restricted modules/functions"

  /** The code mentions one of the banned substrings. */
  predicate IsBanned(code: string)
  {
    exists i :: 0 <= i < |Banned| && Text.Contains(code, Banned[i])
  }

  /** What `exec` does with the code: it finishes, and the captured standard
      output (or, when it raised an `Exception`, the traceback) is the text;
      or a `BaseException` that is not an `Exception`, such as the
      `SystemExit` of `exit()`, escapes the `except Exception` around it. */
  datatype ExecRun = Printed(text: string) | Escaped

  /** What `execute_python_safe` returns: `None` when an escape propagates
      out of it. The screen runs first, so banned code never reaches `exec`;
      the only text other than the security error is what `exec` printed. */
  function SafeOutput(code: string, run: ExecRun): (r: Option<string>)
    ensures IsBanned(code) ==> r == Some(SecurityError)
    ensures r.None? <==> !IsBanned(code) && run.Escaped?
    ensures r.Some? && r.value != SecurityError ==> run == Printed(r.value)
  {
    if IsBanned(code) then Some(SecurityError)
    else match run
      case Printed(text) => Some(text)
      case Escaped => None
  }

  /** The screen: scans the banned list in order and stops at the first hit;
      past it, `exec` either prints or escapes. */
  method ExecutePythonSafe(code: string, run: ExecRun) returns (output: Option<string>)
    ensures IsBanned(code) ==> output == Some(SecurityError)
    ensures !IsBanned(code) ==> output == if run.Printed? then Some(run.text) else None
    ensures output == SafeOutput(code, run)
  {
    for i := 0 to |Banned|
      invariant forall j :: 0 <= j < i ==> !Text.Contains(code, Banned[j])
    {
      if Text.Contains(code, Banned[i]) {
        return Some(SecurityError);
      }
    }
    match run {
      case Printed(text) => output := Some(text);
      case Escaped => output := None;
    }
  }

  /** A banned substring anywhere in the code, at any offset, blocks it, even
      code that would call `exit()`. */
  lemma BannedAnywhereBlocks(code: string, i: nat, at: nat)
    requires i < |Banned| && Text.OccursAt(Banned[i], code, at)
    ensures SafeOutput(code, Escaped) == Some(SecurityError)
  {
    Text.ContainsIsOccurs(code, Banned[i]);
  }

  // ---------------------------------------------------------------------
  // The free-plan limit (lines 53-73)
  // ---------------------------------------------------------------------

  const RunLimit := 2

  const LimitMessage :=
    "Free plan limit reached (2 runs). Please upgrade to purchase a subscription to continue running code."

  /** The user's ACTIVE subscription (the first such row) has a plan whose
      price is above zero; a user without one, or whose subscription's plan
      is missing, is limited. */
  function IsUnlimited(t: Tables, userId: int): (r: bool)
    ensures r ==> exists k :: (0 <= k < |t.subscriptions| && IsActiveOf(t.subscriptions[k], userId)
      && FindPlan(t, t.subscriptions[k].planId).Some? && FindPlan(t, t.subscriptions[k].planId).value.price > 0)
    ensures (forall k :: 0 <= k < |t.subscriptions| ==> !IsActiveOf(t.subscriptions[k], userId)) ==> !r
  {
    var active := ActiveSubscription(t, userId);
    assert active.Some? ==> active.value == t.subscriptions[ActiveSubscriptionIndex(t, userId).value];
    active.Some? && FindPlan(t, active.value.planId).Some? && FindPlan(t, active.value.planId).value.price > 0
  }

  predicate IsRunOf(e: CodeExecution, userId: int) { e.userId == userId }

  /** Every run the user ever made, whatever its outcome. */
  function RunCount(t: Tables, userId: int): nat
  {
    Count(t.executions, (e: CodeExecution) => IsRunOf(e, userId))
  }

  predicate LimitReached(t: Tables, userId: int)
  {
    !IsUnlimited(t, userId) && RunCount(t, userId) >= RunLimit
  }

  /** When a user has at most one ACTIVE subscription, as the payment flow
      keeps it, the user is unlimited exactly when some ACTIVE subscription of
      theirs is on a paid plan. */
  lemma UnlimitedIffPaidActive(t: Tables, userId: int)
    requires forall j, k :: (0 <= j < |t.subscriptions| && 0 <= k < |t.subscriptions|
                             && IsActiveOf(t.subscriptions[j], userId) && IsActiveOf(t.subscriptions[k], userId)) ==> j == k
    ensures IsUnlimited(t, userId) <==>
      exists k :: 0 <= k < |t.subscriptions| && IsActiveOf(t.subscriptions[k], userId)
        && FindPlan(t, t.subscriptions[k].planId).Some? && FindPlan(t, t.subscriptions[k].planId).value.price > 0
  {
    var a := ActiveSubscriptionIndex(t, userId);
    if a.Some? {
      assert ActiveSubscription(t, userId) == Some(t.subscriptions[a.value]);
    }
  }

  // ---------------------------------------------------------------------
  // The translated code (line 91)
  // ---------------------------------------------------------------------

  const Fence := "```"
  const PythonFence := "```python"

  /** Removes every "```python", then every "```", then surrounding
      whitespace: the code is never longer than the answer and never starts
      or ends with whitespace. */
  function StripFences(answer: string): (r: string)
    ensures |r| <= |answer|
    ensures r != "" ==> !Text.IsSpaceChar(r[0]) && !Text.IsSpaceChar(r[|r| - 1])
  {
    var once := Text.ReplaceAll(answer, PythonFence, "");
    Text.RemoveAllShrinks(answer, PythonFence);
    Text.RemoveAllShrinks(once, Fence);
    Text.Strip(Text.ReplaceAll(once, Fence, ""))
  }

  /** After removing "```" nothing of it is left: a kept backtick is never
      followed by two more kept ones. */
  lemma {:induction false} RemovalLeavesNoFence(s: string)
    ensures !Text.Contains(Text.ReplaceAll(s, Fence, ""), Fence)
    decreases |s|
  {
    if |s| > 0 && !Text.StartsWith(s, Fence) {
      var rest := Text.ReplaceAll(s[1..], Fence, "");
      RemovalLeavesNoFence(s[1..]);
      var r := [s[0]] + rest;
      assert r[1..] == rest;
      if s[0] == '`' && |s| > 1 && s[1] == '`' {
        assert !Text.StartsWith(s[1..], Fence);
        assert rest == [s[1]] + Text.ReplaceAll(s[2..], Fence, "");
        if |s| > 2 {
          assert s[2] != '`';
          assert !Text.StartsWith(s[2..], Fence);
          assert rest[1] == s[2];
        }
      }
      assert !Text.StartsWith(r, Fence);
    } else if |s| > 0 {
      RemovalLeavesNoFence(s[|Fence|..]);
      assert Text.ReplaceAll(s, Fence, "") == Text.ReplaceAll(s[|Fence|..], Fence, "");
    }
  }

  /** What occurs in a slice of a string occurs in the string. */
  lemma SliceContainedIn(s: string, i: nat, j: nat, t: string)
    requires i <= j <= |s|
    ensures Text.Contains(s[i..j], t) ==> Text.Contains(s, t)
  {
    var u := s[i..j];
    Text.ContainsIsOccurs(s, t);
    Text.ContainsIsOccurs(u, t);
    if Text.OccursIn(t, u) {
      var k :| Text.OccursAt(t, u, k);
      var w := s[i + k..i + k + |t|];
      forall m | 0 <= m < |t|
        ensures w[m] == t[m]
      {
        assert w[m] == s[i + k + m] == u[k + m] == u[k..k + |t|][m];
      }
      assert w == t;
      assert Text.OccursAt(t, s, i + k);
    }
  }

  lemma SliceKeepsAbsence(s: string, i: nat, r: string, t: string)
    requires i + |r| <= |s| && r == s[i..i + |r|] && !Text.Contains(s, t)
    ensures !Text.Contains(r, t)
  {
    SliceContainedIn(s, i, i + |r|, t);
  }

  /** Stripping whitespace never brings in a substring. */
  lemma StripKeepsAbsence(s: string, t: string)
    requires !Text.Contains(s, t)
    ensures !Text.Contains(Text.Strip(s), t)
  {
    SliceKeepsAbsence(s, Text.StripStart(s), Text.Strip(s), t);
  }

  /** "```python" begins with "```". */
  lemma PythonFenceHasFence(r: string)
    requires !Text.Contains(r, Fence)
    ensures !Text.Contains(r, PythonFence)
  {
    Text.ContainsIsOccurs(r, Fence);
    Text.ContainsIsOccurs(r, PythonFence);
  }

  /** The code that is screened and run never contains a fence. */
  lemma StrippedCodeHasNoFence(answer: string)
    ensures !Text.Contains(StripFences(answer), Fence)
    ensures !Text.Contains(StripFences(answer), PythonFence)
  {
    var once := Text.ReplaceAll(answer, PythonFence, "");
    RemovalLeavesNoFence(once);
    StripKeepsAbsence(Text.ReplaceAll(once, Fence, ""), Fence);
    PythonFenceHasFence(StripFences(answer));
  }

  /** An answer that is plain code, without fences and without surrounding
      whitespace, is run as it is. */
  lemma PlainAnswerUnchanged(answer: string)
    requires !Text.Contains(answer, Fence)
    requires answer != "" ==> !Text.IsSpaceChar(answer[0]) && !Text.IsSpaceChar(answer[|answer| - 1])
    ensures StripFences(answer) == answer
  {
    PythonFenceHasFence(answer);
    Text.RemoveAllShrinks(answer, PythonFence);
    Text.RemoveAllShrinks(answer, Fence);
    assert Text.TrimStart(answer) == answer;
  }

  // ---------------------------------------------------------------------
  // execute_code (lines 47-132)
  // ---------------------------------------------------------------------

  datatype RunRequest = RunRequest(language: string, code: string)

  /** Why a run fails: the free-plan limit, an escape from `exec` that no
      handler of the endpoint catches (the server answers 500), or a failed
      commit. */
  datatype RunCause = LimitHit(message: string) | ExecEscaped | CommitFailed

  const AvailableModels := "gpt-4o, gpt-3.5-turbo"

  /** The text the endpoint returns and stores. `translation` is the
      model's answer, or the message of the exception raised while asking
      for it; `run` is what `exec` does with the code. There is no text
      exactly when unbanned generated code escapes from `exec`; a reported
      run names the code it ran. */
  function FinalOutput(req: RunRequest, translation: Call<string>, run: ExecRun): (r: Option<string>)
    ensures r.None? <==> translation.Returned? && !IsBanned(StripFences(translation.value)) && run.Escaped?
    ensures translation.Returned? && r.Some? ==>
      Text.StartsWith(r.value, "> Generated Python Code:\n" + StripFences(translation.value))
  {
    match translation
    case Returned(answer) =>
      var code := StripFences(answer);
      (match SafeOutput(code, run)
       case None => None
       case Some(result) =>
         Text.PrefixSplit("> Generated Python Code:\n" + code, "\n\n> Output:\n" + result);
         Some("> Generated Python Code:\n" + code + "\n\n> Output:\n" + result))
    case Raised(message) =>
      Some(
      if Text.Contains(message, "API_KEY") then SimulatedHead(req.language) + SimulatedTail(req.language)
      else ErrorHead(message) + "\n\nAvailable Models: " + AvailableModels)
  }

  function SimulatedHead(language: string): string
  {
    "> Executing " + language + " code..."
  }

  function SimulatedTail(language: string): string
  {
    "\n\n> Output:\nHello from DesiCodes (Simulated)!\nLanguage: " + language + "\n(OpenAI API Key missing or invalid)"
  }

  function ErrorHead(message: string): string
  {
    "Error processing request: " + message
  }

  predicate HasSlug(l: Language, slug: string) { l.slug == slug }

  /** The id of the language whose slug is the lowercased request language. */
  function LanguageIdFor(t: Tables, language: string): (r: Option<int>)
    ensures r.Some? <==> exists k :: 0 <= k < |t.languages| && t.languages[k].slug == Text.Lower(language)
    ensures r.Some? ==> exists k :: 0 <= k < |t.languages| && t.languages[k].slug == Text.Lower(language)
                                  && t.languages[k].id == r.value
  {
    match First(t.languages, (l: Language) => HasSlug(l, Text.Lower(language)))
    case None => None
    case Some(l) => Some(l.id)
  }

  function ExecuteSpec(t: Tables, userId: int, req: RunRequest, translation: Call<string>, run: ExecRun, now: Time)
    : (r: Response<string, RunCause>)
    ensures r.reply.Fail? ==> r.tables == t
  {
    if LimitReached(t, userId) then Response(Fail(403, LimitHit(LimitMessage)), t)
    else match FinalOutput(req, translation, run)
      case None => Response(Fail(500, ExecEscaped), t)
      case Some(output) => RecordRun(t, userId, req, output, now)
  }

  /** Lines 112-132: the CodeExecution row holding the output, committed. */
  function RecordRun(t: Tables, userId: int, req: RunRequest, output: string, now: Time): Response<string, RunCause>
  {
    var row := CodeExecution(t.nextId, userId, req.language, LanguageIdFor(t, req.language), req.code, output, now);
    var t' := t.(executions := t.executions + [row], nextId := t.nextId + 1);
    if Consistent(t') then Response(Ok(output), t') else Response(Fail(500, CommitFailed), t)
  }

  /** The text the endpoint returns and records: the generated code and the
      screened run's output, or the translation error; none when the run
      escaped without printing. */
  method ProduceOutput(req: RunRequest, translation: Call<string>, run: ExecRun) returns (output: Option<string>)
    ensures output == FinalOutput(req, translation, run)
  {
    match translation {
      case Returned(answer) =>
        var code := StripFences(answer);
        var result := ExecutePythonSafe(code, run);
        if result.None? {
          return None;
        }
        output := Some("> Generated Python Code:\n" + code + "\n\n> Output:\n" + result.value);
      case Raised(message) =>
        output := FinalOutput(req, translation, run);
    }
  }

  method ExecuteCode(s: Session, userId: int, req: RunRequest, translation: Call<string>, run: ExecRun, now: Time)
    returns (reply: Reply<string, RunCause>)
    requires s.Idle()
    modifies s
    ensures var r := ExecuteSpec(old(s.db), userId, req, translation, run, now);
      reply == r.reply && s.db == r.tables && s.committed == r.tables
  {
    if LimitReached(s.db, userId) {
      return Fail(403, LimitHit(LimitMessage));
    }
    var produced := ProduceOutput(req, translation, run);
    if produced.None? {
      return Fail(500, ExecEscaped);
    }
    var output := produced.value;
    var row := CodeExecution(s.db.nextId, userId, req.language, LanguageIdFor(s.db, req.language), req.code, output, now);
    s.db := s.db.(executions := s.db.executions + [row], nextId := s.db.nextId + 1);
    var ok := s.Commit();
    if !ok {
      s.Rollback();
      return Fail(500, CommitFailed);
    }
    reply := Ok(output);
  }

  /** A limited user with two or more recorded runs is refused with 403 and
      nothing is recorded; no other outcome is a 403. */
  lemma LimitGate(t: Tables, userId: int, req: RunRequest, translation: Call<string>, run: ExecRun, now: Time)
    requires Consistent(t) || LimitReached(t, userId)
    ensures var r := ExecuteSpec(t, userId, req, translation, run, now);
      && (r.reply.Fail? && r.reply.status == 403 <==> !IsUnlimited(t, userId) && RunCount(t, userId) >= RunLimit)
      && (r.reply.Fail? ==> r.tables == t)
  {
  }

  predicate RunRecorded(e: CodeExecution, userId: int, req: RunRequest, output: string, languageId: Option<int>)
  {
    e.userId == userId && e.code == req.code && e.language == req.language && e.output == output && e.languageId == languageId
  }

  /** A recorded run stores the request's code and language, the output
      returned, and the looked-up language id; it adds one to the user's run
      count and leaves the limit decision as it was. */
  lemma RunIsRecorded(t: Tables, userId: int, req: RunRequest, translation: Call<string>, run: ExecRun, now: Time)
    requires ExecuteSpec(t, userId, req, translation, run, now).reply.Ok?
    ensures var r := ExecuteSpec(t, userId, req, translation, run, now);
      && |r.tables.executions| == |t.executions| + 1
      && r.tables.executions[..|t.executions|] == t.executions
      && RunRecorded(r.tables.executions[|t.executions|], userId, req, r.reply.value, LanguageIdFor(t, req.language))
      && RunCount(r.tables, userId) == RunCount(t, userId) + 1
      && IsUnlimited(r.tables, userId) == IsUnlimited(t, userId)
      && r.tables == t.(executions := r.tables.executions, nextId := r.tables.nextId)
  {
    RecordRunEffect(t, userId, req, FinalOutput(req, translation, run).value, now);
  }

  lemma RecordRunEffect(t: Tables, userId: int, req: RunRequest, output: string, now: Time)
    requires RecordRun(t, userId, req, output, now).reply.Ok?
    ensures var r := RecordRun(t, userId, req, output, now);
      && |r.tables.executions| == |t.executions| + 1
      && r.tables.executions[..|t.executions|] == t.executions
      && RunRecorded(r.tables.executions[|t.executions|], userId, req, r.reply.value, LanguageIdFor(t, req.language))
      && RunCount(r.tables, userId) == RunCount(t, userId) + 1
      && IsUnlimited(r.tables, userId) == IsUnlimited(t, userId)
      && r.tables == t.(executions := r.tables.executions, nextId := r.tables.nextId)
  {
    var r := RecordRun(t, userId, req, output, now);
    var e := r.tables.executions[|t.executions|];
    assert r.tables.executions == t.executions + [e];
    CountAppend(t.executions, [e], (x: CodeExecution) => IsRunOf(x, userId));
    assert [e][1..] == [];
    assert r.tables.subscriptions == t.subscriptions && r.tables.plans == t.plans;
  }

  /** Past the gate, the request fails with the escape exactly when unbanned
      generated code escapes from `exec`; then no run is recorded and nothing
      changes, so the escape does not count toward the limit. */
  lemma EscapeRecordsNothing(t: Tables, userId: int, req: RunRequest, answer: string, run: ExecRun, now: Time)
    requires !LimitReached(t, userId)
    ensures var r := ExecuteSpec(t, userId, req, Returned(answer), run, now);
      && (r.reply == Fail(500, ExecEscaped) <==> !IsBanned(StripFences(answer)) && run.Escaped?)
      && (r.reply == Fail(500, ExecEscaped) ==> r.tables == t && RunCount(r.tables, userId) == RunCount(t, userId))
  {
  }

  /** A limited user who starts with no runs gets exactly two: after two
      recorded runs the third request is refused. */
  lemma TwoFreeRuns(t: Tables, userId: int, req: RunRequest, tr: Call<string>, run: ExecRun, now: Time)
    requires !IsUnlimited(t, userId) && RunCount(t, userId) == 0
    requires ExecuteSpec(t, userId, req, tr, run, now).reply.Ok?
    requires ExecuteSpec(ExecuteSpec(t, userId, req, tr, run, now).tables, userId, req, tr, run, now).reply.Ok?
    ensures var t2 := ExecuteSpec(ExecuteSpec(t, userId, req, tr, run, now).tables, userId, req, tr, run, now).tables;
      ExecuteSpec(t2, userId, req, tr, run, now) == Response(Fail(403, LimitHit(LimitMessage)), t2)
  {
    var t1 := ExecuteSpec(t, userId, req, tr, run, now).tables;
    RunIsRecorded(t, userId, req, tr, run, now);
    RunIsRecorded(t1, userId, req, tr, run, now);
  }

  /** Code whose translation mentions a banned substring is never handed to
      `exec`: the reply does not depend on what `exec` would print. */
  lemma BannedCodeIsNotRun(t: Tables, userId: int, req: RunRequest, answer: string, p1: ExecRun, p2: ExecRun, now: Time)
    requires IsBanned(StripFences(answer))
    ensures ExecuteSpec(t, userId, req, Returned(answer), p1, now) == ExecuteSpec(t, userId, req, Returned(answer), p2, now)
    ensures FinalOutput(req, Returned(answer), p1) ==
      Some("> Generated Python Code:\n" + StripFences(answer) + "\n\n> Output:\n" + SecurityError)
  {
    var code := StripFences(answer);
    assert SafeOutput(code, p1) == Some(SecurityError) == SafeOutput(code, p2);
  }

  /** A failed translation is reported, and with "API_KEY" in its message it
      is answered by the simulated output naming the request's language. */
  lemma FailedTranslationReported(req: RunRequest, message: string, run: ExecRun)
    ensures Text.Contains(message, "API_KEY") ==>
      Text.StartsWith(FinalOutput(req, Raised(message), run).value, SimulatedHead(req.language))
    ensures !Text.Contains(message, "API_KEY") ==>
      Text.StartsWith(FinalOutput(req, Raised(message), run).value, ErrorHead(message))
  {
    if Text.Contains(message, "API_KEY") {
      Text.PrefixSplit(SimulatedHead(req.language), SimulatedTail(req.language));
    } else {
      Text.PrefixSplit(ErrorHead(message), "\n\nAvailable Models: " + AvailableModels);
    }
  }
}
