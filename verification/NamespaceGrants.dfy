/** Who may create a namespace, read off the history of a run alone: from the grants that
    were made, and that nothing took back since. */
module NamespaceGrants {
  import opened CommaLists
  import opened Namespaces
  import opened SklParser
  import opened Executor
  import opened NamespaceRuns

  /** Step `g` brings the namespace into being. */
  predicate Appears(steps: seq<Step>, name: string, g: nat)
    requires g < |steps|
  {
    name !in Run(steps[..g]) && name in Run(steps[..g + 1])
  }

  /** A step that gives the role the permission there. */
  predicate Gives(step: Step, name: string, role: string, permission: string) {
    step.GrantTo? && step.name == name && step.role == role && role != "" && permission != "" && permission in step.permissions
  }

  /** A step that takes it back, or the role with it. */
  predicate Takes(step: Step, name: string, role: string, permission: string) {
    step == RevokeFrom(name, role, permission) || step == RemoveRole(name, role)
  }

  /** After the run the role has the permission: it was given it in this namespace, or the
      namespace got it from its parent when it was made; and since then nothing took it back. */
  ghost predicate Stands(steps: seq<Step>, name: string, role: string, permission: string)
    decreases |steps|
  {
    exists g | 0 <= g < |steps| ::
      && Untaken(steps, g, name, role, permission)
      && ((Gives(steps[g], name, role, permission) && name in Run(steps[..g]))
          || (!IsRoot(name) && Appears(steps, name, g) && Stands(steps[..g], Parent(name), role, permission)))
  }

  /** Nothing behind step `g` takes it back. */
  predicate Untaken(steps: seq<Step>, g: nat, name: string, role: string, permission: string) {
    forall k | g < k < |steps| :: !Takes(steps[k], name, role, permission)
  }

  /** It stands because of step `g`. */
  ghost predicate StandsFrom(steps: seq<Step>, g: nat, name: string, role: string, permission: string)
    requires g < |steps|
  {
    && Untaken(steps, g, name, role, permission)
    && ((Gives(steps[g], name, role, permission) && name in Run(steps[..g]))
        || (!IsRoot(name) && Appears(steps, name, g) && Stands(steps[..g], Parent(name), role, permission)))
  }

  /** The last step of a run, and what stood before. */
  ghost predicate StandsAtLast(before: seq<Step>, last: Step, name: string, role: string, permission: string) {
    || (Gives(last, name, role, permission) && name in Run(before))
    || (!IsRoot(name) && name !in Run(before) && name in Run(before + [last]) && Stands(before, Parent(name), role, permission))
    || (Stands(before, name, role, permission) && !Takes(last, name, role, permission))
  }

  lemma {:induction false} StandsStep(before: seq<Step>, last: Step, name: string, role: string, permission: string)
    ensures Stands(before + [last], name, role, permission) <==> StandsAtLast(before, last, name, role, permission)
  {
    hide Run, Gives, Takes;
    var steps, n := before + [last], |before|;
    assert steps[..n] == before && steps[..n + 1] == steps && steps[n] == last;
    forall g | 0 <= g < n
      ensures StandsFrom(steps, g, name, role, permission)
         <==> StandsFrom(before, g, name, role, permission) && !Takes(last, name, role, permission)
    {
      EarlierStands(before, last, g, name, role, permission);
    }
    StandsMeans(before, name, role, permission);
    StandsMeans(steps, name, role, permission);
    assert StandsFrom(steps, n, name, role, permission) <==>
             || (Gives(last, name, role, permission) && name in Run(before))
             || (!IsRoot(name) && name !in Run(before) && name in Run(steps) && Stands(before, Parent(name), role, permission));
  }

  lemma StandsMeans(steps: seq<Step>, name: string, role: string, permission: string)
    ensures Stands(steps, name, role, permission)
       <==> exists g | 0 <= g < |steps| :: StandsFrom(steps, g, name, role, permission)
  {
    hide Run, Gives, Takes;
    if Stands(steps, name, role, permission) {
      var g :| 0 <= g < |steps|
        && Untaken(steps, g, name, role, permission)
        && ((Gives(steps[g], name, role, permission) && name in Run(steps[..g]))
            || (!IsRoot(name) && Appears(steps, name, g) && Stands(steps[..g], Parent(name), role, permission)));
      assert StandsFrom(steps, g, name, role, permission);
    }
    if g: nat :| g < |steps| && StandsFrom(steps, g, name, role, permission) {
      assert Untaken(steps, g, name, role, permission);
      assert Stands(steps, name, role, permission);
    }
  }

  lemma {:induction false} EarlierStands(before: seq<Step>, last: Step, g: nat, name: string, role: string, permission: string)
    requires g < |before|
    ensures StandsFrom(before + [last], g, name, role, permission)
       <==> StandsFrom(before, g, name, role, permission) && !Takes(last, name, role, permission)
  {
    hide Run, Gives, Takes, Stands;
    var steps := before + [last];
    assert steps[..g] == before[..g] && steps[..g + 1] == before[..g + 1] && steps[g] == before[g];
    assert forall k | g < k < |before| :: steps[k] == before[k];
    assert steps[|before|] == last;
  }

  /** What one step does to a right, in terms of the step alone and of what appears. */
  lemma RightsStep(rights: Rights, step: Step, name: string, role: string, permission: string)
    ensures var after := RightsAfter(rights, step);
            Allows(after, name, role, permission) <==>
              || (Gives(step, name, role, permission) && name in rights)
              || (!IsRoot(name) && name !in rights && name in after && Allows(rights, Parent(name), role, permission))
              || (Allows(rights, name, role, permission) && !Takes(step, name, role, permission))
  {
    hide MayCreate, Parent;
    match step
    case Execute(user, statement) =>
    case GrantTo(n, r, permissions) =>
    case RevokeFrom(n, r, p) =>
    case AddRole(n, r) =>
    case RemoveRole(n, r) =>
    case AddUser(_, _) =>
    case RemoveUser(_, _) =>
  }

  // --------------------------------------------------------------- main results

  /** A role has a permission somewhere if and only if the history says so. */
  lemma {:induction false} StandsExactly(steps: seq<Step>, name: string, role: string, permission: string)
    requires AllPlain(steps)
    ensures Stands(steps, name, role, permission) <==> Allows(RunRights(steps), name, role, permission)
    ensures permission != "" ==> (Stands(steps, name, role, permission) <==> Permits(Run(steps), name, role, permission))
    decreases |steps|
  {
    RunRefines(steps);
    if permission != "" {
      PermitsExactly(Run(steps), name, role, permission);
    }
    if steps != [] {
      var before, last := steps[..|steps| - 1], steps[|steps| - 1];
      assert before + [last] == steps;
      hide RightsAfter, Allows, Stands, Permits, Sound, RightsOf, After, MayCreate;
      StandsExactly(before, name, role, permission);
      StandsStep(before, last, name, role, permission);
      RightsStep(RunRights(before), last, name, role, permission);
      SameNames(Run(before));
      SameNames(Run(steps));
      RunRefines(before);
      if !IsRoot(name) {
        StandsExactly(before, Parent(name), role, permission);
      }
    } else {
      NothingStands(name, role, permission);
    }
  }

  lemma NothingStands(name: string, role: string, permission: string)
    ensures !Stands([], name, role, permission) && !Allows(RunRights([]), name, role, permission)
  {
  }

  /** A namespace that is not there yet is made by `CREATE NAMESPACE` if and only if the user is the
      admin, or the parent is there and a grant of "create.namespace" to one of the user's roles in the
      parent stands; for the admin too the parent must be there, and a root must have a name. */
  lemma CreatesExactly(steps: seq<Step>, user: User, name: string)
    requires AllPlain(steps) && name !in Run(steps)
    ensures name in Run(steps + [Execute(user, CreateNamespace(name))]) <==>
              && user.User?
              && (if '.' !in name then name != "" && user.name == "admin"
                  else
                    && Parent(name) in Run(steps)
                    && (user.name == "admin"
                        || exists role :: role in user.RolesIn(Parent(name)) && Stands(steps, Parent(name), role, "create.namespace")))
  {
    hide Stands, Sound, RightsOf, Permits, Allows;
    var step := Execute(user, CreateNamespace(name));
    assert (steps + [step])[..|steps|] == steps;
    RunRefines(steps);
    SameNames(Run(steps));
    CreateAppears(Run(steps), user, name);
    if '.' in name {
      forall role ensures Stands(steps, Parent(name), role, CREATE) <==> Allows(RunRights(steps), Parent(name), role, CREATE) {
        StandsExactly(steps, Parent(name), role, CREATE);
      }
      RolesAllow(RunRights(steps), Parent(name), user.RolesIn(Parent(name)), CREATE);
    }
  }

  lemma CreateAppears(st: Store, user: User, name: string)
    requires name !in st
    ensures name in AfterStatement(st, user, CreateNamespace(name)) <==> user.User? && MayCreate(RightsOf(st), user, name)
  {
    hide RightsOf, SomeRoleAllows;
    SameNames(st);
  }

  lemma RolesAllow(rights: Rights, name: string, roles: seq<string>, permission: string)
    ensures SomeRoleAllows(rights, name, roles, permission) <==> exists role :: role in roles && Allows(rights, name, role, permission)
  {
    hide Allows;
    if role :| role in roles && Allows(rights, name, role, permission) {
      var k :| 0 <= k < |roles| && roles[k] == role;
    }
  }

  /** `ancestor` is the namespace itself or one above it. */
  predicate Above(ancestor: string, name: string)
    decreases |name|
  {
    ancestor == name || (!IsRoot(name) && Above(ancestor, Parent(name)))
  }

  /** What stands was once granted: in the namespace, or in one above it. */
  lemma {:induction false} GrantBehind(steps: seq<Step>, name: string, role: string, permission: string) returns (g: nat)
    requires Stands(steps, name, role, permission)
    ensures g < |steps| && steps[g].GrantTo? && steps[g].role == role && permission in steps[g].permissions
    ensures Above(steps[g].name, name)
    decreases |steps|
  {
    hide Run;
    StandsMeans(steps, name, role, permission);
    g :| 0 <= g < |steps| && StandsFrom(steps, g, name, role, permission);
    if !(Gives(steps[g], name, role, permission) && name in Run(steps[..g])) {
      var h := GrantBehind(steps[..g], Parent(name), role, permission);
      assert steps[..g][h] == steps[h];
      g := h;
    }
  }

  /** Whoever is not the admin and makes a namespace was given "create.namespace" before, for one of the
      roles he has in the parent, there or in a namespace above it. */
  lemma CreationNeedsGrant(steps: seq<Step>, name: string, i: nat) returns (g: nat)
    requires AllPlain(steps) && i < |steps| && Appears(steps, name, i)
    requires !(steps[i].Execute? && steps[i].user.IsAdmin())
    ensures g < i && steps[g].GrantTo? && "create.namespace" in steps[g].permissions
    ensures '.' in name && Above(steps[g].name, Parent(name))
    ensures steps[i].Execute? && steps[i].user.User? && steps[g].role in steps[i].user.RolesIn(Parent(name))
  {
    hide Run, Stands, After, MayCreate;
    var before := steps[..i];
    assert steps[..i + 1] == before + [steps[i]] && (before + [steps[i]])[..i] == before;
    LastAppears(before, steps[i], name);
    CreatesExactly(before, steps[i].user, name);
    var role :| role in steps[i].user.RolesIn(Parent(name)) && Stands(before, Parent(name), role, "create.namespace");
    g := GrantBehind(before, Parent(name), role, "create.namespace");
  }

  lemma LastAppears(before: seq<Step>, last: Step, name: string)
    requires name !in Run(before) && name in Run(before + [last])
    ensures last.Execute? && last.user.User? && last == Execute(last.user, CreateNamespace(name))
  {
    hide After, MayCreate;
    var steps := before + [last];
    assert steps[..|steps| - 1] == before;
    NewHasParent(Run(before), last, name);
  }

  /** Where "create.namespace" was never granted, the admin made everything. */
  lemma AdminMadeAll(steps: seq<Step>, name: string, i: nat)
    requires AllPlain(steps) && i < |steps| && Appears(steps, name, i)
    requires forall g | 0 <= g < i && steps[g].GrantTo? :: "create.namespace" !in steps[g].permissions
    ensures steps[i].Execute? && steps[i].user.IsAdmin()
  {
    hide Run;
    if !(steps[i].Execute? && steps[i].user.IsAdmin()) {
      var g := CreationNeedsGrant(steps, name, i);
    }
  }

  // ------------------------------------------------------- responses, sessions

  /** The response to `CREATE NAMESPACE` tells what became of the store. */
  lemma ResponseTells(st: Store, user: User, name: string)
    requires user.User?
    ensures var w, after := CreateResponse(RightsOf(st), user, name), AfterStatement(st, user, CreateNamespace(name));
      && (w == Success(NamespaceAlreadyExists) <==> name in st)
      && (w == Success(OK) <==> name !in st && name in after)
      && (w != Success(OK) ==> after == st)
      && (w == Fail(NoSuchNamespace) ==> '.' in name && Parent(name) !in st && user.name != "admin")
      && (w == Fail(Unauthorized) ==> user.name != "admin" && ('.' !in name || Parent(name) in st))
  {
    hide RightsOf, SomeRoleAllows;
    SameNames(st);
  }

  /** `USE` moves the session of this user to the namespace. */
  predicate Moves(st: Store, user: User, s: Statement, name: string) {
    s == Use(name) && name in st && user.User? && (user.name == "admin" || name in user.namespaces)
  }

  /** The namespace of a session after statements, each executed on a store of its own time. */
  function SessionAfter(stores: seq<Store>, user: User, statements: seq<Statement>, start: string): string
    requires |stores| == |statements|
  {
    if statements == [] then start
    else
      var n := |statements| - 1;
      var s := statements[n];
      if s.Use? && MayUse(stores[n], user, s.name) then s.name else SessionAfter(stores[..n], user, statements[..n], start)
  }

  /** It is the one that the last `USE` named that was let through: of a namespace that was there, by the
      admin or by a user who has that namespace. */
  lemma {:induction false} SessionExactly(stores: seq<Store>, user: User, statements: seq<Statement>, start: string, i: nat, name: string)
    requires |stores| == |statements| && i <= |statements|
    requires forall j, other | i <= j < |statements| :: !Moves(stores[j], user, statements[j], other)
    ensures i == 0 ==> SessionAfter(stores, user, statements, start) == start
    ensures i > 0 && Moves(stores[i - 1], user, statements[i - 1], name) ==> SessionAfter(stores, user, statements, start) == name
    decreases |statements|
  {
    if i < |statements| {
      var n := |statements| - 1;
      assert statements[n].Use? ==> !Moves(stores[n], user, statements[n], statements[n].name);
      forall j, other | i <= j < n ensures !Moves(stores[..n][j], user, statements[..n][j], other) {
        assert !Moves(stores[j], user, statements[j], other);
      }
      SessionExactly(stores[..n], user, statements[..n], start, i, name);
    }
  }
}
