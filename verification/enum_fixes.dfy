/**
 * The repair scripts aspy_backend/fix_enum_values.py and
 * aspy_backend/fix_user_type.py. They work below the ORM, on the text stored
 * in the enum columns, so they are modelled on raw rows: each rewrites the
 * lowercase spellings an older schema left behind into the member names the
 * ORM reads, in one transaction that an error rolls back without re-raising.
 */
module EnumFixes {
  import opened Common

  datatype RawSubscription = RawSubscription(id: int, userId: int, status: string)
  datatype RawPlan = RawPlan(id: int, name: string, planType: string)
  datatype RawUser = RawUser(id: int, email: string, userType: string, isSuperuser: bool)

  /** One `UPDATE ... SET column = new WHERE column = old`. */
  datatype Rename = Rename(from: string, to: string)

  const StatusRenames: seq<Rename> := [
    Rename("active", "ACTIVE"),
    Rename("cancelled", "CANCELLED"),
    Rename("expired", "EXPIRED"),
    Rename("past_due", "PAST_DUE")]

  const PlanTypeRenames: seq<Rename> := [Rename("free", "FREE"), Rename("pro", "PRO")]

  /** A value after the given UPDATEs have run in order. */
  function Renamed(v: string, renames: seq<Rename>): string
  {
    if |renames| == 0 then v
    else
      var w := Renamed(v, renames[..|renames| - 1]);
      if w == renames[|renames| - 1].from then renames[|renames| - 1].to else w
  }

  /** The intended meaning of the status rewrite: each listed lowercase
      value becomes its upper-case name and any other value stays. */
  function FixedStatus(v: string): string
  {
    if v == "active" then "ACTIVE"
    else if v == "cancelled" then "CANCELLED"
    else if v == "expired" then "EXPIRED"
    else if v == "past_due" then "PAST_DUE"
    else v
  }

  function FixedPlanType(v: string): string
  {
    if v == "free" then "FREE" else if v == "pro" then "PRO" else v
  }

  function FixedUserType(v: string): string
  {
    if v == "user" then "USER" else if v == "admin" then "ADMIN" else v
  }

  /** Running the four status UPDATEs in order is the rewrite above: no
      UPDATE picks up what an earlier one wrote. */
  lemma StatusRenamesMeaning(v: string)
    ensures Renamed(v, StatusRenames) == FixedStatus(v)
  {
    var r := StatusRenames;
    var r1, r2, r3 := r[..1], r[..2], r[..3];
    assert r1[..0] == [] && r2[..1] == r1 && r3[..2] == r2 && r[..3] == r3;
    assert Renamed(v, r1) == if v == "active" then "ACTIVE" else v;
    assert Renamed(v, r2) == if Renamed(v, r1) == "cancelled" then "CANCELLED" else Renamed(v, r1);
    assert Renamed(v, r3) == if Renamed(v, r2) == "expired" then "EXPIRED" else Renamed(v, r2);
  }

  lemma PlanTypeRenamesMeaning(v: string)
    ensures Renamed(v, PlanTypeRenames) == FixedPlanType(v)
  {
    var r := PlanTypeRenames;
    var r1 := r[..1];
    assert r1[..0] == [];
    assert Renamed(v, r[..1]) == if v == "free" then "FREE" else v;
  }

  /** Each rewrite leaves unlisted values alone and is idempotent. */
  lemma FixesIdempotent(v: string)
    ensures FixedStatus(FixedStatus(v)) == FixedStatus(v)
    ensures FixedPlanType(FixedPlanType(v)) == FixedPlanType(v)
    ensures FixedUserType(FixedUserType(v)) == FixedUserType(v)
    ensures v !in {"active", "cancelled", "expired", "past_due"} ==> FixedStatus(v) == v
    ensures v !in {"free", "pro"} ==> FixedPlanType(v) == v
    ensures v !in {"user", "admin"} ==> FixedUserType(v) == v
  {
  }

  function StatusIs(v: string): RawSubscription -> bool { (x: RawSubscription) => x.status == v }
  function PlanTypeIs(v: string): RawPlan -> bool { (x: RawPlan) => x.planType == v }
  function UserTypeIs(v: string): RawUser -> bool { (x: RawUser) => x.userType == v }

  /** One status UPDATE: no row is added, removed or reordered, only the
      status column is written, only rows holding `from` change, and they
      all end up holding `to`; with `from` and `to` distinct, the `to` count
      grows by the `from` count and no `from` is left. */
  function RenameStatus(rows: seq<RawSubscription>, r: Rename): (out: seq<RawSubscription>)
    ensures |out| == |rows|
    ensures forall k :: 0 <= k < |rows| ==> out[k].(status := rows[k].status) == rows[k]
    ensures forall k :: 0 <= k < |rows| && rows[k].status != r.from ==> out[k] == rows[k]
    ensures forall k :: 0 <= k < |rows| && rows[k].status == r.from ==> out[k].status == r.to
    ensures r.from != r.to ==>
      && Count(out, StatusIs(r.to)) == Count(rows, StatusIs(r.to)) + Count(rows, StatusIs(r.from))
      && Count(out, StatusIs(r.from)) == 0
  {
    var out := seq(|rows|, k requires 0 <= k < |rows| => if rows[k].status == r.from then rows[k].(status := r.to) else rows[k]);
    if r.from != r.to then
      CountMoved(rows, out, StatusIs(r.from), StatusIs(r.to));
      out
    else out
  }

  /** One plan type UPDATE, with the same guarantees as `RenameStatus`. */
  function RenamePlanType(rows: seq<RawPlan>, r: Rename): (out: seq<RawPlan>)
    ensures |out| == |rows|
    ensures forall k :: 0 <= k < |rows| ==> out[k].(planType := rows[k].planType) == rows[k]
    ensures forall k :: 0 <= k < |rows| && rows[k].planType != r.from ==> out[k] == rows[k]
    ensures forall k :: 0 <= k < |rows| && rows[k].planType == r.from ==> out[k].planType == r.to
    ensures r.from != r.to ==>
      && Count(out, PlanTypeIs(r.to)) == Count(rows, PlanTypeIs(r.to)) + Count(rows, PlanTypeIs(r.from))
      && Count(out, PlanTypeIs(r.from)) == 0
  {
    var out := seq(|rows|, k requires 0 <= k < |rows| => if rows[k].planType == r.from then rows[k].(planType := r.to) else rows[k]);
    if r.from != r.to then
      CountMoved(rows, out, PlanTypeIs(r.from), PlanTypeIs(r.to));
      out
    else out
  }

  /** One user type UPDATE, with the same guarantees as `RenameStatus`. */
  function RenameUserType(rows: seq<RawUser>, r: Rename): (out: seq<RawUser>)
    ensures |out| == |rows|
    ensures forall k :: 0 <= k < |rows| ==> out[k].(userType := rows[k].userType) == rows[k]
    ensures forall k :: 0 <= k < |rows| && rows[k].userType != r.from ==> out[k] == rows[k]
    ensures forall k :: 0 <= k < |rows| && rows[k].userType == r.from ==> out[k].userType == r.to
    ensures r.from != r.to ==>
      && Count(out, UserTypeIs(r.to)) == Count(rows, UserTypeIs(r.to)) + Count(rows, UserTypeIs(r.from))
      && Count(out, UserTypeIs(r.from)) == 0
  {
    var out := seq(|rows|, k requires 0 <= k < |rows| => if rows[k].userType == r.from then rows[k].(userType := r.to) else rows[k]);
    if r.from != r.to then
      CountMoved(rows, out, UserTypeIs(r.from), UserTypeIs(r.to));
      out
    else out
  }

  /** The database as the scripts see it. */
  class RawDatabase {
    var subscriptions: seq<RawSubscription>
    var plans: seq<RawPlan>
    var users: seq<RawUser>

    /** `fix_enum_values`: the status UPDATEs, then the plan type UPDATEs,
        then one commit. `raised` says whether the database raised on the
        way; the script then rolls back and returns normally. */
    method FixEnumValues(raised: bool)
      modifies this
      ensures users == old(users)
      ensures raised ==> subscriptions == old(subscriptions) && plans == old(plans)
      ensures !raised ==>
        && |subscriptions| == |old(subscriptions)| && |plans| == |old(plans)|
        && (forall k :: 0 <= k < |subscriptions| ==>
              subscriptions[k] == old(subscriptions)[k].(status := FixedStatus(old(subscriptions)[k].status)))
        && (forall k :: 0 <= k < |plans| ==>
              plans[k] == old(plans)[k].(planType := FixedPlanType(old(plans)[k].planType)))
    {
      var subs0, plans0 := subscriptions, plans;
      for i := 0 to |StatusRenames|
        invariant |subscriptions| == |subs0| && plans == plans0 && users == old(users)
        invariant forall k :: 0 <= k < |subs0| ==>
          subscriptions[k] == subs0[k].(status := Renamed(subs0[k].status, StatusRenames[..i]))
      {
        assert StatusRenames[..i + 1][..i] == StatusRenames[..i];
        subscriptions := RenameStatus(subscriptions, StatusRenames[i]);
      }
      ghost var subs1 := subscriptions;
      for i := 0 to |PlanTypeRenames|
        invariant |plans| == |plans0| && subscriptions == subs1 && users == old(users)
        invariant forall k :: 0 <= k < |plans0| ==>
          plans[k] == plans0[k].(planType := Renamed(plans0[k].planType, PlanTypeRenames[..i]))
      {
        assert PlanTypeRenames[..i + 1][..i] == PlanTypeRenames[..i];
        plans := RenamePlanType(plans, PlanTypeRenames[i]);
      }
      assert StatusRenames[..|StatusRenames|] == StatusRenames;
      assert PlanTypeRenames[..|PlanTypeRenames|] == PlanTypeRenames;
      forall k | 0 <= k < |subs0| {
        StatusRenamesMeaning(subs0[k].status);
      }
      forall k | 0 <= k < |plans0| {
        PlanTypeRenamesMeaning(plans0[k].planType);
      }
      if raised {
        subscriptions, plans := subs0, plans0;
      }
    }

    /** `fix_user_type_enum`: 'user' becomes 'USER', then 'admin' becomes
        'ADMIN', then one commit, rolled back when the database raised. */
    method FixUserTypes(raised: bool)
      modifies this
      ensures subscriptions == old(subscriptions) && plans == old(plans)
      ensures raised ==> users == old(users)
      ensures !raised ==> |users| == |old(users)| && forall k :: 0 <= k < |users| ==>
        users[k] == old(users)[k].(userType := FixedUserType(old(users)[k].userType))
    {
      var users0 := users;
      users := RenameUserType(users, Rename("user", "USER"));
      users := RenameUserType(users, Rename("admin", "ADMIN"));
      if raised {
        users := users0;
      }
    }
  }
}
