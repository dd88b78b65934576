/** Whole runs over the namespace store: every namespace has its parents, and somebody allowed to made it. */
module NamespaceRuns {
  import opened CommaLists
  import opened Namespaces
  import opened SklParser
  import opened Executor

  datatype Step =
    | Execute(user: User, statement: Statement)
    | GrantTo(name: string, role: string, permissions: seq<string>)
    | RevokeFrom(name: string, role: string, permission: string)
    | AddRole(name: string, role: string)
    | RemoveRole(name: string, role: string)
    | AddUser(name: string, username: string)
    | RemoveUser(name: string, username: string)

  /** Permissions are granted by names without commas. */
  predicate Plain(step: Step) {
    step.GrantTo? ==> forall k :: 0 <= k < |step.permissions| ==> ',' !in step.permissions[k]
  }

  predicate AllPlain(steps: seq<Step>) {
    forall k :: 0 <= k < |steps| ==> Plain(steps[k])
  }

  function After(st: Store, step: Step): Store {
    match step
    case Execute(user, statement) => AfterStatement(st, user, statement)
    case GrantTo(name, role, permissions) => Granted(st, name, role, permissions)
    case RevokeFrom(name, role, permission) => Revoked(st, name, role, permission)
    case AddRole(name, role) => RoleAdded(st, name, role)
    case RemoveRole(name, role) => RoleRemoved(st, name, role)
    case AddUser(name, username) => UserAdded(st, name, username)
    case RemoveUser(name, username) => UserRemoved(st, name, username)
  }

  /** The store after a run from the empty one. */
  function Run(steps: seq<Step>): Store {
    if steps == [] then map[] else After(Run(steps[..|steps| - 1]), steps[|steps| - 1])
  }

  // ------------------------------------------- the same run on sets of names

  function RightsAfterCreate(rights: Rights, user: User, name: string): Rights {
    if name in rights || !MayCreate(rights, user, name) then rights
    else if IsRoot(name) then Found(rights, name)
    else Inherit(rights, Parent(name), name)
  }

  function RightsAfter(rights: Rights, step: Step): Rights {
    match step
    case Execute(user, statement) =>
      if user.User? && statement.CreateNamespace? then RightsAfterCreate(rights, user, statement.name) else rights
    case GrantTo(name, role, permissions) => Allow(rights, name, role, Given(permissions))
    case RevokeFrom(name, role, permission) => Forbid(rights, name, role, permission)
    case AddRole(name, role) => Introduce(rights, name, role)
    case RemoveRole(name, role) => Dismiss(rights, name, role)
    case AddUser(_, _) => rights
    case RemoveUser(_, _) => rights
  }

  function RunRights(steps: seq<Step>): Rights {
    if steps == [] then map[] else RightsAfter(RunRights(steps[..|steps| - 1]), steps[|steps| - 1])
  }

  lemma GrantKeepsPace(st: Store, name: string, role: string, permissions: seq<string>)
    requires forall k :: 0 <= k < |permissions| ==> ',' !in permissions[k]
    ensures RightsOf(Granted(st, name, role, permissions)) == Allow(RightsOf(st), name, role, Given(permissions))
  {
    hide RightsOf, Granted, Given;
    assert name in RightsOf(st) <==> name in st by { SameNames(st); }
    if role == "" {
      GrantsNobody(st, name, permissions);
    } else if name in st {
      GrantsExactly(st, name, role, permissions);
    } else {
      assert Granted(st, name, role, permissions) == st by { GrantElsewhere(st, name, role, permissions); }
    }
  }

  lemma SameNames(st: Store)
    ensures RightsOf(st).Keys == st.Keys
  {
  }

  lemma GrantElsewhere(st: Store, name: string, role: string, permissions: seq<string>)
    requires name !in st
    ensures Granted(st, name, role, permissions) == st
  {
  }

  lemma CreateKeepsPace(st: Store, user: User, name: string)
    ensures RightsOf(AfterCreate(st, user, name)) == RightsAfterCreate(RightsOf(st), user, name)
  {
    hide RightsOf, Created, ChildCreated, Found, Inherit, MayCreate, IsRoot;
    SameNames(st);
    RightsOfTheNew(st, name);
    if !IsRoot(name) {
      assert '.' in name by { Dotted(name); }
      RightsOfTheChild(st, Parent(name), name);
    }
  }

  lemma Dotted(name: string)
    ensures IsRoot(name) <==> '.' !in name
  {
  }

  /** One step on the strings is the same step on the sets. */
  lemma StepRefines(st: Store, step: Step)
    requires Sound(st) && Plain(step)
    ensures RightsOf(After(st, step)) == RightsAfter(RightsOf(st), step)
  {
    hide RightsOf, Sound, AfterCreate, Granted, Revoked, RoleAdded, RoleRemoved, UserAdded, UserRemoved;
    match step
    case Execute(user, statement) =>
      if user.User? && statement.CreateNamespace? {
        CreateKeepsPace(st, user, statement.name);
      }
    case GrantTo(name, role, permissions) => GrantKeepsPace(st, name, role, permissions);
    case RevokeFrom(name, role, permission) => RevokesExactly(st, name, role, permission);
    case AddRole(name, role) => RolesComeAndGo(st, name, role);
    case RemoveRole(name, role) => RolesComeAndGo(st, name, role);
    case AddUser(name, username) => UsersGiveNoRights(st, name, username);
    case RemoveUser(name, username) => UsersGiveNoRights(st, name, username);
  }

  lemma StaysSound(st: Store, step: Step)
    requires Sound(st)
    ensures Sound(After(st, step))
    ensures st.Keys <= After(st, step).Keys
    ensures forall name :: name in After(st, step) && name !in st ==> step.Execute? && step.statement == CreateNamespace(name)
  {
    hide MayCreate, Appended, Removed, RightsOf;
  }

  /** In every run the comma-joined strings stand for what the sets of permissions say. */
  lemma {:induction false} RunRefines(steps: seq<Step>)
    requires AllPlain(steps)
    ensures Sound(Run(steps))
    ensures RightsOf(Run(steps)) == RunRights(steps)
  {
    hide Sound, After, RightsAfter, RightsOf;
    if steps != [] {
      var before := steps[..|steps| - 1];
      RunRefines(before);
      StaysSound(Run(before), steps[|steps| - 1]);
      StepRefines(Run(before), steps[|steps| - 1]);
    } else {
      EmptyStore();
    }
  }

  lemma EmptyStore()
    ensures Sound(map[]) && RightsOf(map[]) == map[]
  {
  }

  // ------------------------------------------------- what every run keeps

  /** Each namespace that is not a root has its parent. */
  ghost predicate Closed(names: set<string>) {
    forall name :: name in names && !IsRoot(name) ==> Parent(name) in names
  }

  lemma NewHasParent(st: Store, step: Step, name: string)
    requires name in After(st, step) && name !in st
    ensures step.Execute? && step.user.User? && step.statement == CreateNamespace(name)
    ensures MayCreate(RightsOf(st), step.user, name)
    ensures !IsRoot(name) ==> Parent(name) in st
  {
    hide Appended, Removed;
    SameNames(st);
  }

  /** In every run, every namespace but a root has its parent. */
  lemma {:induction false} RunClosed(steps: seq<Step>)
    ensures Sound(Run(steps)) && Closed(Run(steps).Keys)
  {
    hide Sound, After;
    if steps != [] {
      var before := Run(steps[..|steps| - 1]);
      var last := steps[|steps| - 1];
      RunClosed(steps[..|steps| - 1]);
      StaysSound(before, last);
      forall name | name in After(before, last) && !IsRoot(name)
        ensures Parent(name) in After(before, last)
      {
        if name !in before {
          NewHasParent(before, last, name);
        }
      }
    } else {
      EmptyStore();
    }
  }

  /** Nothing in a run takes a namespace away again: what a session once used stays there. */
  lemma {:induction false} NothingVanishes(steps: seq<Step>, i: nat)
    requires i <= |steps|
    ensures Run(steps[..i]).Keys <= Run(steps).Keys
  {
    hide Sound, After;
    if i < |steps| {
      var before := steps[..|steps| - 1];
      NothingVanishes(before, i);
      assert before[..i] == steps[..i];
      RunClosed(before);
      StaysSound(Run(before), steps[|steps| - 1]);
    } else {
      assert steps[..i] == steps;
    }
  }

  /** The i-th step made the namespace, for a user who at that moment was allowed to. */
  predicate MadeAt(steps: seq<Step>, name: string, i: nat) {
    i < |steps| && steps[i].Execute? && steps[i].user.User? && steps[i].statement == CreateNamespace(name)
    && name !in RunRights(steps[..i])
    && MayCreate(RunRights(steps[..i]), steps[i].user, name)
  }

  lemma {:induction false} SomebodyMadeIt(steps: seq<Step>, name: string) returns (i: nat)
    requires AllPlain(steps) && name in Run(steps)
    ensures MadeAt(steps, name, i)
  {
    hide After, MayCreate, RightsAfter, RightsOf, Sound;
    var before, last := steps[..|steps| - 1], steps[|steps| - 1];
    RunRefines(before);
    if name in Run(before) {
      i := SomebodyMadeIt(before, name);
      assert before[..i] == steps[..i];
    } else {
      NewHasParent(Run(before), last, name);
      SameNames(Run(before));
      i := |steps| - 1;
    }
  }

  lemma MadeIsThere(steps: seq<Step>, name: string, i: nat)
    requires AllPlain(steps) && MadeAt(steps, name, i)
    ensures name in Run(steps[..i + 1]) && name in Run(steps)
  {
    hide Sound, MayCreate;
    var before, next := steps[..i], steps[..i + 1];
    assert next[..i] == before && next[i] == steps[i];
    RunRefines(before);
    SameNames(Run(before));
    CreateKeepsPace(Run(before), steps[i].user, name);
    Enters(RightsOf(Run(before)), steps[i].user, name);
    SameNames(AfterCreate(Run(before), steps[i].user, name));
    NothingVanishes(steps, i + 1);
  }

  lemma Enters(rights: Rights, user: User, name: string)
    requires name !in rights && MayCreate(rights, user, name)
    ensures name in RightsAfterCreate(rights, user, name)
  {
  }

  /** A namespace is there if and only if some step made it for a user who then was the admin, or
      who, below an existing parent, had a role with the permission to create. */
  lemma Provenance(steps: seq<Step>, name: string)
    requires AllPlain(steps)
    ensures name in Run(steps) <==> exists i: nat :: MadeAt(steps, name, i)
  {
    hide Run, MadeAt;
    if name in Run(steps) {
      var i := SomebodyMadeIt(steps, name);
    }
    if exists i: nat :: MadeAt(steps, name, i) {
      var i: nat :| MadeAt(steps, name, i);
      MadeIsThere(steps, name, i);
    }
  }

  /** It is made only once. */
  lemma MadeOnce(steps: seq<Step>, name: string, i: nat, j: nat)
    requires AllPlain(steps) && MadeAt(steps, name, i) && MadeAt(steps, name, j)
    ensures i == j
  {
    hide Run, RunRights, MayCreate, RightsOf, Sound;
    if i != j {
      var first, second := if i < j then i else j, if i < j then j else i;
      var early := steps[..second];
      MadeIsThere(steps, name, first);
      NothingVanishes(early, first + 1);
      assert early[..first + 1] == steps[..first + 1];
      RunRefines(early);
      SameNames(Run(early));
      assert false;
    }
  }

  lemma {:induction false} TopOf(name: string)
    ensures IsRoot(name) ==> Top(name) == name
    ensures !IsRoot(name) ==> Top(name) == Top(Parent(name))
    decreases |name|
  {
    if IsRoot(name) {
      if name != "" {
        TopOf(name[1..]);
        assert [name[0]] + name[1..] == name;
      }
    } else {
      var p := Parent(name);
      SameTop(name, p);
    }
  }

  /** The first dot of a name is also the first of what stands before a later one. */
  lemma {:induction false} SameTop(name: string, front: string)
    requires |front| < |name| && name[..|front|] == front && name[|front|] == '.'
    ensures Top(name) == Top(front)
  {
    if front != "" && front[0] != '.' {
      assert name[1..][..|front| - 1] == front[1..];
      SameTop(name[1..], front[1..]);
    }
  }

  /** Every namespace there is stands below a root with a name, and that root was made by the admin. */
  lemma {:induction false} UnderARoot(steps: seq<Step>, name: string) returns (i: nat)
    requires AllPlain(steps) && name in Run(steps)
    ensures Top(name) != "" && IsRoot(Top(name)) && Top(name) in Run(steps)
    ensures MadeAt(steps, Top(name), i) && steps[i].user.IsAdmin()
    decreases |name|
  {
    hide Run, RunRights;
    RunClosed(steps);
    TopOf(name);
    if IsRoot(name) {
      i := SomebodyMadeIt(steps, name);
    } else {
      i := UnderARoot(steps, Parent(name));
    }
  }

  /** Deleting, which no statement does, keeps every parent in place if and only if the namespace has no child. */
  lemma DeletesExactly(st: Store, name: string)
    requires Closed(st.Keys)
    ensures Closed(Deleted(st, name).Keys)
        <==> name !in st || forall child :: child in st && !IsRoot(child) ==> Parent(child) != name
  {
    var left := Deleted(st, name).Keys;
    assert left == st.Keys - {name};
    if Closed(left) && name in st {
      forall child | child in st && !IsRoot(child)
        ensures Parent(child) != name
      {
        if child == name {
          assert |Parent(child)| < |name|;
        } else {
          assert child in left;
        }
      }
    }
  }
}
