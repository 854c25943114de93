/**
 * aspy_backend/create_admin.py: make the user with a given email an admin,
 * inserting a new admin account when no user has that email. The three
 * answers typed at the prompt are stripped and must all be non-empty. The
 * password hash is a parameter (hashing is outside the model).
 */
module CreateAdmin {
  import opened Common
  import opened Models
  import opened Store
  import Text

  datatype AdminOutcome =
    | FieldsMissing          // "All fields are required!", exit status 1
    | Upgraded
    | AlreadyAdmin
    | Created(user: User)
    | RolledBack             // the commit raised; reported and swallowed

  datatype AdminRun = AdminRun(outcome: AdminOutcome, tables: Tables)

  predicate HasEmail(u: User, email: string) { u.email == email }

  function NewAdmin(id: int, username: string, email: string, passwordHash: string, now: Time): User
  {
    User(id, username, email, passwordHash, true, true, ADMIN, None, now)
  }

  /** `create_admin_user` (lines 11-53). */
  function CreateAdminSpec(t: Tables, email: string, username: string, passwordHash: string, now: Time): (r: AdminRun)
    ensures r.outcome == RolledBack ==> r.tables == t
    ensures r.outcome != FieldsMissing
  {
    match FirstIndex(t.users, (u: User) => HasEmail(u, email))
    case Some(k) =>
      if t.users[k].userType != ADMIN then
        var t' := t.(users := t.users[k := t.users[k].(userType := ADMIN)]);
        if Consistent(t') then AdminRun(Upgraded, t') else AdminRun(RolledBack, t)
      else AdminRun(AlreadyAdmin, t)
    case None =>
      var u := NewAdmin(t.nextId, username, email, passwordHash, now);
      var t' := t.(users := t.users + [u], nextId := t.nextId + 1);
      if Consistent(t') then AdminRun(Created(u), t') else AdminRun(RolledBack, t)
  }

  method CreateAdminUser(s: Session, email: string, username: string, passwordHash: string, now: Time)
    returns (outcome: AdminOutcome)
    requires s.Idle()
    modifies s
    ensures var r := CreateAdminSpec(old(s.db), email, username, passwordHash, now);
      outcome == r.outcome && s.db == r.tables && s.committed == r.tables
  {
    var found := FirstIndex(s.db.users, (u: User) => HasEmail(u, email));
    if found.Some? {
      var k := found.value;
      if s.db.users[k].userType != ADMIN {
        s.db := s.db.(users := s.db.users[k := s.db.users[k].(userType := ADMIN)]);
        var ok := s.Commit();
        if !ok {
          s.Rollback();
          return RolledBack;
        }
        return Upgraded;
      }
      return AlreadyAdmin;
    }
    var u := NewAdmin(s.db.nextId, username, email, passwordHash, now);
    s.db := s.db.(users := s.db.users + [u], nextId := s.db.nextId + 1);
    var ok := s.Commit();
    if !ok {
      s.Rollback();
      return RolledBack;
    }
    outcome := Created(u);
  }

  /** The script's entry point (lines 55-67): strip the three answers and
      stop before touching the database when any is empty. */
  function RunScriptSpec(t: Tables, email: string, username: string, password: string, passwordHash: string, now: Time)
    : (r: AdminRun)
    ensures r.outcome == FieldsMissing ==> r.tables == t
  {
    var e, u, p := Text.Strip(email), Text.Strip(username), Text.Strip(password);
    if e == "" || u == "" || p == "" then AdminRun(FieldsMissing, t)
    else CreateAdminSpec(t, e, u, passwordHash, now)
  }

  method RunScript(s: Session, email: string, username: string, password: string, passwordHash: string, now: Time)
    returns (outcome: AdminOutcome)
    requires s.Idle()
    modifies s
    ensures var r := RunScriptSpec(old(s.db), email, username, password, passwordHash, now);
      outcome == r.outcome && s.db == r.tables && s.committed == r.tables
  {
    var e, u, p := Text.Strip(email), Text.Strip(username), Text.Strip(password);
    if e == "" || u == "" || p == "" {
      return FieldsMissing;
    }
    outcome := CreateAdminUser(s, e, u, passwordHash, now);
  }

  /** An existing non-admin gets only `user_type` changed to ADMIN; an
      existing admin is left alone; a new email gets exactly one new row, an
      active superuser admin with the given username and password hash. */
  lemma CreateAdminEffects(t: Tables, email: string, username: string, passwordHash: string, now: Time)
    ensures var r := CreateAdminSpec(t, email, username, passwordHash, now);
      && (r.outcome == Upgraded ==>
            exists k :: 0 <= k < |t.users| && t.users[k].email == email && t.users[k].userType != ADMIN
              && r.tables == t.(users := t.users[k := t.users[k].(userType := ADMIN)]))
      && (r.outcome == AlreadyAdmin ==> r.tables == t)
      && (r.outcome.Created? ==>
            && (forall k :: 0 <= k < |t.users| ==> t.users[k].email != email)
            && r.tables == t.(users := t.users + [r.outcome.user], nextId := t.nextId + 1)
            && r.outcome.user.userType == ADMIN && r.outcome.user.isActive && r.outcome.user.isSuperuser
            && r.outcome.user.email == email && r.outcome.user.username == username
            && r.outcome.user.password == passwordHash)
      && (r.outcome != RolledBack <==> r.outcome == AlreadyAdmin || Consistent(r.tables))
  {
  }

  /** Afterwards the first user with that email is an admin, and running the
      script again with the same email changes nothing. */
  lemma CreateAdminIdempotent(t: Tables, email: string, username: string, passwordHash: string, now: Time)
    requires CreateAdminSpec(t, email, username, passwordHash, now).outcome != RolledBack
    ensures var t1 := CreateAdminSpec(t, email, username, passwordHash, now).tables;
      && First(t1.users, (u: User) => HasEmail(u, email)).Some?
      && First(t1.users, (u: User) => HasEmail(u, email)).value.userType == ADMIN
      && CreateAdminSpec(t1, email, username, passwordHash, now) == AdminRun(AlreadyAdmin, t1)
  {
    var t1 := CreateAdminSpec(t, email, username, passwordHash, now).tables;
    var i := FirstIndex(t.users, (u: User) => HasEmail(u, email));
    if i.Some? {
      var k := i.value;
      assert forall j :: 0 <= j < |t1.users| ==> HasEmail(t1.users[j], email) == HasEmail(t.users[j], email);
      var j := FirstIndex(t1.users, (u: User) => HasEmail(u, email));
      assert j == Some(k) by {
        assert j.Some?;
        assert !(j.value < k) && !(k < j.value);
      }
    } else {
      var j := FirstIndex(t1.users, (u: User) => HasEmail(u, email));
      assert HasEmail(t1.users[|t.users|], email);
      assert j == Some(|t.users|) by {
        assert j.Some?;
        assert !(j.value < |t.users|);
      }
    }
  }

  /** A blank answer at the prompt stops the script with nothing written. */
  lemma BlankFieldsStop(t: Tables, email: string, username: string, password: string, passwordHash: string, now: Time)
    ensures (Text.Strip(email) == "" || Text.Strip(username) == "" || Text.Strip(password) == "") <==>
      RunScriptSpec(t, email, username, password, passwordHash, now) == AdminRun(FieldsMissing, t)
  {
  }
}
