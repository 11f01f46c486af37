/** The role-membership reconciliation the user resources run on Update:
    add every desired role the user is not yet in, then drop every current
    role that is no longer desired, stopping at the first failure.

    Role sets arrive as `seq<string>` in the order Terraform lists the set's
    elements; a null set is the empty sequence. */
module Membership {
  import opened Wrappers
  import opened Engine
  import opened Framework
  import Sql
  import Roles
  import Order

  /** The elements of `s` that are not in `excluded`, in the order of `s`. */
  function Without(s: seq<string>, excluded: seq<string>): (r: seq<string>)
    ensures forall x :: x in r <==> x in s && x !in excluded
    ensures |r| <= |s|
  {
    if |s| == 0 then []
    else (if s[0] in excluded then [] else [s[0]]) + Without(s[1..], excluded)
  }

  lemma {:induction false} WithoutAllExcluded(s: seq<string>, excluded: seq<string>)
    requires forall i :: 0 <= i < |s| ==> s[i] in excluded
    ensures Without(s, excluded) == []
  {
    if |s| > 0 {
      WithoutAllExcluded(s[1..], excluded);
    }
  }

  /** Filtering a set's elements cannot produce a duplicate. */
  lemma {:induction false} WithoutDistinct(s: seq<string>, excluded: seq<string>)
    requires Order.Distinct(s)
    ensures Order.Distinct(Without(s, excluded))
  {
    if |s| > 0 {
      assert Order.Distinct(s[1..]);
      WithoutDistinct(s[1..], excluded);
      assert s[0] !in s[1..];
    }
  }

  /** The elements of a role list, as a set. */
  function Elements(s: seq<string>): set<string> {
    set x | x in s
  }

  /** The roles to add: desired and not current, in desired order. */
  function ToAdd(desired: seq<string>, current: seq<string>): seq<string> {
    Without(desired, current)
  }

  /** The roles to drop: current and not desired, in current order. */
  function ToRemove(desired: seq<string>, current: seq<string>): seq<string> {
    Without(current, desired)
  }

  /** `AddDatabaseRoleMember` for one role, its error prefixed with the role
      the resource was adding. */
  function AddStep(db: string, user: string, role: string): Step {
    var s := Roles.AddMemberStep(db, role, user);
    s.(wrap := "Failed to add user to role '" + role + "': " + s.wrap)
  }

  /** `RemoveDatabaseRoleMember` for one role, prefixed likewise. */
  function RemoveStep(db: string, user: string, role: string): Step {
    var s := Roles.RemoveMemberStep(db, role, user);
    s.(wrap := "Failed to remove user from role '" + role + "': " + s.wrap)
  }

  /** A membership statement for `user` in `db`: `add` says which way. */
  predicate IsMemberStep(s: Step, db: string, user: string, add: bool) {
    s.context == InDatabase(db)
    && s.stmt.AlterRoleMember? && !s.stmt.server && s.stmt.member == user && s.stmt.add == add
  }

  function AddSteps(db: string, user: string, roles: seq<string>): (steps: seq<Step>)
    ensures |steps| == |roles|
    ensures forall i :: 0 <= i < |roles| ==>
              IsMemberStep(steps[i], db, user, true) && steps[i].stmt.role == roles[i]
  {
    if |roles| == 0 then [] else [AddStep(db, user, roles[0])] + AddSteps(db, user, roles[1..])
  }

  function RemoveSteps(db: string, user: string, roles: seq<string>): (steps: seq<Step>)
    ensures |steps| == |roles|
    ensures forall i :: 0 <= i < |roles| ==>
              IsMemberStep(steps[i], db, user, false) && steps[i].stmt.role == roles[i]
  {
    if |roles| == 0 then [] else [RemoveStep(db, user, roles[0])] + RemoveSteps(db, user, roles[1..])
  }

  /** The statements of a role update: every addition first, then every
      removal; an addition is always of a desired role the user is not in,
      a removal always of a current role that is not desired. */
  function DiffSteps(db: string, user: string, desired: seq<string>, current: seq<string>): (steps: seq<Step>)
    ensures |steps| == |ToAdd(desired, current)| + |ToRemove(desired, current)|
    ensures forall i :: 0 <= i < |steps| ==> IsMemberStep(steps[i], db, user, i < |ToAdd(desired, current)|)
    ensures forall i :: 0 <= i < |steps| && i < |ToAdd(desired, current)| ==>
              steps[i].stmt.AlterRoleMember? && steps[i].stmt.role in desired && steps[i].stmt.role !in current
    ensures forall i :: |ToAdd(desired, current)| <= i < |steps| ==>
              steps[i].stmt.AlterRoleMember? && steps[i].stmt.role in current && steps[i].stmt.role !in desired
  {
    var a := ToAdd(desired, current);
    var r := ToRemove(desired, current);
    var adds := AddSteps(db, user, a);
    var removes := RemoveSteps(db, user, r);
    forall i | 0 <= i < |adds| ensures adds[i].stmt.role in desired && adds[i].stmt.role !in current {
      assert a[i] in a;
    }
    forall i | 0 <= i < |removes| ensures removes[i].stmt.role in current && removes[i].stmt.role !in desired {
      assert r[i] in r;
    }
    adds + removes
  }

  /** Statements built one per role of a list without repeats name
      pairwise different roles. */
  lemma StepRolesDistinct(steps: seq<Step>, roles: seq<string>)
    requires Order.Distinct(roles) && |steps| == |roles|
    requires forall i :: 0 <= i < |steps| ==> steps[i].stmt.AlterRoleMember? && steps[i].stmt.role == roles[i]
    ensures forall i, j :: 0 <= i < j < |steps| ==> steps[i].stmt.role != steps[j].stmt.role
  {
  }

  lemma DiffStepsSplit(db: string, user: string, desired: seq<string>, current: seq<string>)
    ensures DiffSteps(db, user, desired, current)
            == AddSteps(db, user, ToAdd(desired, current)) + RemoveSteps(db, user, ToRemove(desired, current))
  {
  }

  /** Every role to add gets exactly one statement, and the same for every
      role to drop, as long as neither set repeats an element. */
  lemma EachRoleOnce(db: string, user: string, desired: seq<string>, current: seq<string>)
    requires Order.Distinct(desired) && Order.Distinct(current)
    ensures var steps := DiffSteps(db, user, desired, current);
            forall i, j :: 0 <= i < j < |steps| ==>
              steps[i].stmt.role != steps[j].stmt.role || steps[i].stmt.add != steps[j].stmt.add
  {
    var steps := DiffSteps(db, user, desired, current);
    var a := ToAdd(desired, current);
    var r := ToRemove(desired, current);
    WithoutDistinct(desired, current);
    WithoutDistinct(current, desired);
    var adds := AddSteps(db, user, a);
    var removes := RemoveSteps(db, user, r);
    StepRolesDistinct(adds, a);
    StepRolesDistinct(removes, r);
    DiffStepsSplit(db, user, desired, current);
    JoinOnce(adds, removes);
  }

  /** Additions followed by removals, each without a repeated role, never
      name the same role twice in the same direction. */
  lemma JoinOnce(adds: seq<Step>, removes: seq<Step>)
    requires forall i :: 0 <= i < |adds| ==> adds[i].stmt.AlterRoleMember? && adds[i].stmt.add
    requires forall i :: 0 <= i < |removes| ==> removes[i].stmt.AlterRoleMember? && !removes[i].stmt.add
    requires forall i, j :: 0 <= i < j < |adds| ==> adds[i].stmt.role != adds[j].stmt.role
    requires forall i, j :: 0 <= i < j < |removes| ==> removes[i].stmt.role != removes[j].stmt.role
    ensures var steps := adds + removes;
            forall i, j :: 0 <= i < j < |steps| ==>
              steps[i].stmt.role != steps[j].stmt.role || steps[i].stmt.add != steps[j].stmt.add
  {
    var steps := adds + removes;
    forall i, j | 0 <= i < j < |steps|
      ensures steps[i].stmt.role != steps[j].stmt.role || steps[i].stmt.add != steps[j].stmt.add
    {
      if j < |adds| {
        assert steps[i] == adds[i] && steps[j] == adds[j];
      } else if i >= |adds| {
        assert steps[i] == removes[i - |adds|] && steps[j] == removes[j - |adds|];
      } else {
        assert steps[i] == adds[i] && steps[j] == removes[j - |adds|];
      }
    }
  }

  /** The memberships `steps` leave behind, starting from `roles`, when all
      of them run. */
  function Apply(roles: set<string>, steps: seq<Step>): set<string>
    decreases |steps|
  {
    if |steps| == 0 then roles
    else
      var s := steps[0].stmt;
      var next := if !s.AlterRoleMember? then roles
                  else if s.add then roles + {s.role}
                  else roles - {s.role};
      Apply(next, steps[1..])
  }

  lemma {:induction false} ApplyAdds(roles: set<string>, db: string, user: string, added: seq<string>)
    ensures Apply(roles, AddSteps(db, user, added)) == roles + Elements(added)
    decreases |added|
  {
    if |added| > 0 {
      ApplyAdds(roles + {added[0]}, db, user, added[1..]);
      assert AddSteps(db, user, added)[1..] == AddSteps(db, user, added[1..]);
      assert Elements(added) == {added[0]} + Elements(added[1..]);
    }
  }

  lemma {:induction false} ApplyRemoves(roles: set<string>, db: string, user: string, removed: seq<string>)
    ensures Apply(roles, RemoveSteps(db, user, removed)) == roles - Elements(removed)
    decreases |removed|
  {
    if |removed| > 0 {
      ApplyRemoves(roles - {removed[0]}, db, user, removed[1..]);
      assert RemoveSteps(db, user, removed)[1..] == RemoveSteps(db, user, removed[1..]);
      assert Elements(removed) == {removed[0]} + Elements(removed[1..]);
    }
  }

  lemma {:induction false} ApplyAppend(roles: set<string>, a: seq<Step>, b: seq<Step>)
    ensures Apply(roles, a + b) == Apply(Apply(roles, a), b)
    decreases |a|
  {
    if |a| > 0 {
      assert (a + b)[1..] == a[1..] + b;
      assert (a + b)[0] == a[0];
      var s := a[0].stmt;
      var next := if !s.AlterRoleMember? then roles
                  else if s.add then roles + {s.role}
                  else roles - {s.role};
      assert Apply(roles, a + b) == Apply(next, a[1..] + b);
      assert Apply(roles, a) == Apply(next, a[1..]);
      ApplyAppend(next, a[1..], b);
    } else {
      assert a + b == b;
    }
  }

  /** Running the whole diff from the current memberships leaves exactly the
      desired ones. */
  lemma DiffReachesDesired(db: string, user: string, desired: seq<string>, current: seq<string>)
    ensures Apply(Elements(current), DiffSteps(db, user, desired, current)) == Elements(desired)
  {
    var a := ToAdd(desired, current);
    var r := ToRemove(desired, current);
    var cur := Elements(current);
    ApplyAppend(cur, AddSteps(db, user, a), RemoveSteps(db, user, r));
    ApplyAdds(cur, db, user, a);
    ApplyRemoves(cur + Elements(a), db, user, r);
  }

  /** Terraform's set equality. */
  predicate SameElements(a: seq<string>, b: seq<string>) {
    Elements(a) == Elements(b)
  }

  /** The diff is empty exactly when the two role sets are equal, so the
      resource's equality guard only skips an update that would do nothing. */
  lemma NoStepsIffSameRoles(db: string, user: string, desired: seq<string>, current: seq<string>)
    ensures DiffSteps(db, user, desired, current) == [] <==> SameElements(desired, current)
  {
    var a := ToAdd(desired, current);
    var r := ToRemove(desired, current);
    if SameElements(desired, current) {
      forall i | 0 <= i < |desired| ensures desired[i] in current {
        assert desired[i] in Elements(desired);
      }
      forall i | 0 <= i < |current| ensures current[i] in desired {
        assert current[i] in Elements(current);
      }
      WithoutAllExcluded(desired, current);
      WithoutAllExcluded(current, desired);
    } else {
      var x :| x in Elements(desired) - Elements(current) || x in Elements(current) - Elements(desired);
      assert x in a || x in r;
    }
  }

  /** Run the diff: on success the stored roles are the desired ones sorted;
      the first failing statement stops the rest and is reported under the
      summary of the kind of statement it was. */
  function Reconcile(e: Engine, db: string, user: string, desired: seq<string>, current: seq<string>)
    : (o: Reply<seq<string>>)
    ensures var steps := DiffSteps(db, user, desired, current);
            (o.response.Saved? <==> forall i :: 0 <= i < |steps| ==> Succeeds(e, steps[i]))
            && (o.response.Saved? ==> o.issued == Commands(steps))
            && (o.response.Failed? ==> o.issued <= Commands(steps))
    ensures o.response.Saved? ==>
              Order.Sorted(o.response.state)
              && forall x :: x in o.response.state <==> x in desired
    ensures !o.response.Removed?
    ensures o.response.Failed? ==>
              var k := FailIndex(e, DiffSteps(db, user, desired, current));
              k < |DiffSteps(db, user, desired, current)|
              && (o.response.summary == "Failed to add role" <==> k < |ToAdd(desired, current)|)
              && (o.response.summary == "Failed to remove role" <==> k >= |ToAdd(desired, current)|)
  {
    var steps := DiffSteps(db, user, desired, current);
    var run := RunAll(e, steps);
    if run.result.Ok? then
      Order.SortSameElements(desired);
      Reply(run.issued, Saved(Order.Sort(desired)))
    else
      var k := FailIndex(e, steps);
      RunAllWithin(e, steps);
      Reply(run.issued, Failed(if k < |ToAdd(desired, current)| then "Failed to add role" else "Failed to remove role",
                               run.result.msg))
  }

  /** The elements `ElementsAs` yields for a set attribute; a null set
      (`None`) yields none. */
  function Listed(roles: Option<seq<string>>): seq<string> {
    roles.GetOr([])
  }

  /** `types.Set.Equal`: both null, or both present with the same elements. */
  predicate SetEqual(a: Option<seq<string>>, b: Option<seq<string>>) {
    (a.None? && b.None?) || (a.Some? && b.Some? && SameElements(a.value, b.value))
  }

  /** The role assignment of a user Create: add the user to every planned
      role in turn, stopping at the first failure; the planned roles are then
      stored as they were listed, an empty set standing in for a null one. */
  function AssignRoles(e: Engine, db: string, user: string, planned: Option<seq<string>>)
    : (o: Reply<Option<seq<string>>>)
    ensures var steps := AddSteps(db, user, Listed(planned));
            (o.response.Saved? <==> forall i :: 0 <= i < |steps| ==> Succeeds(e, steps[i]))
            && (o.response.Saved? ==> o.issued == Commands(steps))
            && (o.response.Failed? ==> o.issued <= Commands(steps))
    ensures o.response.Saved? ==> o.response.state == Some(Listed(planned))
    ensures o.response.Failed? ==> o.response.summary == "Failed to assign role"
    ensures !o.response.Removed?
  {
    var steps := AddSteps(db, user, Listed(planned));
    var run := RunAll(e, steps);
    if run.result.Ok? then Reply(run.issued, Saved(Some(Listed(planned))))
    else
      RunAllWithin(e, steps);
      Reply(run.issued, Failed("Failed to assign role", run.result.msg))
  }

  /** The role half of a user Update: nothing at all when the planned set
      equals the stored one, otherwise the reconciliation, whose success
      stores the desired roles sorted. */
  function UpdateRoles(e: Engine, db: string, user: string, desired: Option<seq<string>>, current: Option<seq<string>>)
    : (o: Reply<Option<seq<string>>>)
    ensures SetEqual(desired, current) ==> o == Reply([], Saved(desired))
    ensures !o.response.Removed?
    ensures forall c :: c in o.issued ==> c.context == InDatabase(db) && c.stmt.AlterRoleMember?
    ensures !SetEqual(desired, current) ==>
              var steps := DiffSteps(db, user, Listed(desired), Listed(current));
              (o.response.Saved? <==> forall i :: 0 <= i < |steps| ==> Succeeds(e, steps[i]))
              && (o.response.Saved? ==> o.issued == Commands(steps))
              && (o.response.Failed? ==> o.issued <= Commands(steps))
    ensures !SetEqual(desired, current) && o.response.Saved? ==>
              o.response.state.Some?
              && Order.Sorted(o.response.state.value)
              && forall x :: x in o.response.state.value <==> x in Listed(desired)
  {
    if SetEqual(desired, current) then Reply([], Saved(desired))
    else
      var r := Reconcile(e, db, user, Listed(desired), Listed(current));
      CommandsOfMemberSteps(db, user, DiffSteps(db, user, Listed(desired), Listed(current)), r.issued);
      match r.response
      case Saved(roles) => Reply(r.issued, Saved(Some(roles)))
      case Failed(summary, detail) => Reply(r.issued, Failed(summary, detail))
      case Removed => Reply(r.issued, Removed)
  }

  lemma {:induction false} CommandsOfMemberSteps(db: string, user: string, steps: seq<Step>, issued: seq<Command>)
    requires forall i :: 0 <= i < |steps| ==> steps[i].context == InDatabase(db) && steps[i].stmt.AlterRoleMember?
    requires issued <= Commands(steps)
    ensures forall c :: c in issued ==> c.context == InDatabase(db) && c.stmt.AlterRoleMember?
  {
    forall c | c in issued ensures c.context == InDatabase(db) && c.stmt.AlterRoleMember? {
      var i :| 0 <= i < |issued| && issued[i] == c;
      assert c == StepCommand(steps[i]);
    }
  }
}
