/** Executing statements for a session: who may use and who may create which namespace. */
module Executor {
  import opened CommaLists
  import opened Namespaces
  import opened SklParser

  /** A session's user as the user store answers for it; Nobody where the session has none. */
  datatype User = Nobody | User(name: string, roles: map<string, seq<string>>, namespaces: seq<string>) {
    predicate IsAdmin() {
      User? && name == "admin"
    }

    function RolesIn(namespace: string): seq<string> {
      if User? && namespace in roles then roles[namespace] else []
    }
  }

  datatype Code =
    | OK
    | NamespaceAlreadyExists
    | NoSuchNamespace
    | Unauthorized
    | CreateNamespaceError
    | InternalServerError

  datatype Response = Silent | Success(code: Code) | Fail(code: Code)

  const CREATE := "create.namespace"

  // -------------------------------------------------------- dotted names

  predicate IsRoot(name: string) {
    '.' !in name
  }

  /** What stands before the last dot. */
  function Parent(name: string): (parent: string)
    requires '.' in name
    ensures |parent| < |name| && name[..|parent|] == parent && name[|parent|] == '.'
    ensures '.' !in name[|parent| + 1..]
  {
    var front := name[..|name| - 1];
    if name[|name| - 1] == '.' then front
    else
      assert name == front + [name[|name| - 1]];
      Parent(front)
  }

  /** What stands before the first dot, or the whole of a name without one. */
  function Top(name: string): (top: string)
    ensures |top| <= |name| && name[..|top|] == top && IsRoot(top)
    ensures |top| < |name| ==> name[|top|] == '.'
  {
    if name == "" || name[0] == '.' then "" else [name[0]] + Top(name[1..])
  }

  method LastIndex(name: string) returns (index: int)
    ensures IsRoot(name) ==> index == -1
    ensures !IsRoot(name) ==> index == |Parent(name)|
  {
    index := |name| - 1;
    while index >= 0 && name[index] != '.'
      invariant -1 <= index < |name|
      invariant '.' !in name[index + 1..]
    {
      assert name[index..] == [name[index]] + name[index + 1..];
      index := index - 1;
    }
    if index >= 0 {
      OnlyLastDot(name, index);
    } else {
      assert name[index + 1..] == name;
    }
  }

  lemma OnlyLastDot(name: string, index: nat)
    requires index < |name| && name[index] == '.' && '.' !in name[index + 1..]
    ensures |Parent(name)| == index
  {
    var p := |Parent(name)|;
    assert forall k :: p < k < |name| ==> name[k] == name[p + 1..][k - p - 1];
    assert forall k :: index < k < |name| ==> name[k] == name[index + 1..][k - index - 1];
  }

  // ------------------------------------------------- who may create what

  predicate SomeRoleAllows(rights: Rights, name: string, roles: seq<string>, permission: string) {
    exists k :: 0 <= k < |roles| && Allows(rights, name, roles[k], permission)
  }

  /** Roots are for the admin. Anything else needs an existing parent, and unless the user is the
      admin a role there that may create namespaces. */
  predicate MayCreate(rights: Rights, user: User, name: string) {
    if IsRoot(name) then name != "" && user.IsAdmin()
    else
      Parent(name) in rights &&
      (user.IsAdmin() || SomeRoleAllows(rights, Parent(name), user.RolesIn(Parent(name)), CREATE))
  }

  function CreateResponse(rights: Rights, user: User, name: string): Response {
    if name in rights then Success(NamespaceAlreadyExists)
    else if MayCreate(rights, user, name) then Success(OK)
    else if IsRoot(name) then Fail(if user.IsAdmin() then CreateNamespaceError else Unauthorized)
    else if Parent(name) in rights then Fail(Unauthorized)
    else Fail(if user.IsAdmin() then InternalServerError else NoSuchNamespace)
  }

  function AfterCreate(st: Store, user: User, name: string): Store {
    if name in st || !MayCreate(RightsOf(st), user, name) then st
    else if IsRoot(name) then Created(st, name)
    else ChildCreated(st, Parent(name), name)
  }

  predicate MayUse(st: Store, user: User, name: string) {
    name in st && user.User? && (user.IsAdmin() || name in user.namespaces)
  }

  function UseResponse(st: Store, user: User, name: string): Response {
    if name !in st then Fail(NoSuchNamespace)
    else if MayUse(st, user, name) then Success(OK)
    else Fail(Unauthorized)
  }

  function AfterStatement(st: Store, user: User, s: Statement): Store {
    if user.User? && s.CreateNamespace? then AfterCreate(st, user, s.name) else st
  }

  // -------------------------------------------------------- the executor

  class Executor {
    const user: User
    const store: NamespaceStore
    var namespace: string

    constructor (namespace: string, user: User, store: NamespaceStore)
      ensures this.namespace == namespace && this.user == user && this.store == store
    {
      this.namespace, this.user, this.store := namespace, user, store;
    }

    method Execute(s: Statement) returns (w: Response)
      modifies this, store
      ensures store.buckets == AfterStatement(old(store.buckets), user, s)
      ensures namespace ==
              if s.Use? && MayUse(old(store.buckets), user, s.name) then s.name else old(namespace)
      ensures w ==
              if user == Nobody then Fail(InternalServerError)
              else match s
                   case Use(name) => UseResponse(old(store.buckets), user, name)
                   case CreateNamespace(name) => CreateResponse(RightsOf(old(store.buckets)), user, name)
                   case DropNamespace(_) => Silent
                   case ShowNamespaces => Success(OK)
    {
      if user == Nobody {
        return Fail(InternalServerError);
      }
      match s {
        case Use(name) => w := HandleUse(name);
        case CreateNamespace(name) => w := HandleCreate(name);
        case ShowNamespaces => w := Success(OK);
        case DropNamespace(_) => w := Silent;
      }
    }

    method HandleUse(name: string) returns (w: Response)
      requires user.User?
      modifies this
      ensures w == UseResponse(store.buckets, user, name)
      ensures namespace == if MayUse(store.buckets, user, name) then name else old(namespace)
    {
      var err := store.Get(name);
      if err == NamespaceDoesNotExist {
        return Fail(NoSuchNamespace);
      }
      if user.IsAdmin() {
        namespace := name;
        return Success(OK);
      }
      for i := 0 to |user.namespaces|
        invariant name !in user.namespaces[..i]
        invariant namespace == old(namespace)
      {
        if user.namespaces[i] == name {
          namespace := name;
          return Success(OK);
        }
      }
      w := Fail(Unauthorized);
    }

    method HandleCreate(name: string) returns (w: Response)
      requires user.User?
      modifies store
      ensures store.buckets == AfterCreate(old(store.buckets), user, name)
      ensures w == CreateResponse(RightsOf(old(store.buckets)), user, name)
    {
      var err := store.Get(name);
      if err == NoError {
        return Success(NamespaceAlreadyExists);
      }
      if IsRoot(name) {
        w := HandleCreateRoot(name);
        return;
      }
      var access := user.IsAdmin();
      var index := LastIndex(name);
      var parent := name[..index];
      var known := false;
      if !access {
        var roles := user.RolesIn(parent);
        err := store.Get(parent);
        if err == NamespaceDoesNotExist {
          return Fail(NoSuchNamespace);
        }
        known := true;
        access := AnyRoleAllows(parent, roles);
        if !access {
          return Fail(Unauthorized);
        }
      }
      if !known {
        err := store.Get(parent);
        if err != NoError {
          return Fail(InternalServerError);
        }
      }
      err := store.CreateChild(parent, name);
      if err != NoError {
        return Fail(CreateNamespaceError);
      }
      w := Success(OK);
    }

    /** The loop over the user's roles in the parent. */
    method AnyRoleAllows(parent: string, roles: seq<string>) returns (access: bool)
      ensures access == SomeRoleAllows(RightsOf(store.buckets), parent, roles, CREATE)
    {
      access := false;
      for i := 0 to |roles|
        invariant access == SomeRoleAllows(RightsOf(store.buckets), parent, roles[..i], CREATE)
      {
        var allow := store.HasPermission(parent, roles[i], CREATE);
        PermitsExactly(store.buckets, parent, roles[i], CREATE);
        OneMoreRole(RightsOf(store.buckets), parent, roles, i);
        if allow {
          access := true;
        }
      }
      assert roles[..|roles|] == roles;
    }

    method HandleCreateRoot(name: string) returns (w: Response)
      requires user.User? && IsRoot(name) && name !in store.buckets
      modifies store
      ensures store.buckets == AfterCreate(old(store.buckets), user, name)
      ensures w == CreateResponse(RightsOf(old(store.buckets)), user, name)
    {
      var err := store.Get(name);
      if err == NoError {
        return Success(NamespaceAlreadyExists);
      }
      if user.IsAdmin() {
        err := store.Create(name);
        if err != NoError {
          return Fail(CreateNamespaceError);
        }
        return Success(OK);
      }
      w := Fail(Unauthorized);
    }
  }

  lemma OneMoreRole(rights: Rights, name: string, roles: seq<string>, i: nat)
    requires i < |roles|
    ensures SomeRoleAllows(rights, name, roles[..i + 1], CREATE)
        <==> SomeRoleAllows(rights, name, roles[..i], CREATE) || Allows(rights, name, roles[i], CREATE)
  {
    hide Allows;
    var more, less := roles[..i + 1], roles[..i];
    assert more == less + [roles[i]];
    if SomeRoleAllows(rights, name, less, CREATE) {
      var k :| 0 <= k < |less| && Allows(rights, name, less[k], CREATE);
      assert more[k] == less[k];
    }
    if Allows(rights, name, roles[i], CREATE) {
      assert more[i] == roles[i];
    }
    if SomeRoleAllows(rights, name, more, CREATE) {
      var k :| 0 <= k < |more| && Allows(rights, name, more[k], CREATE);
      assert k < i ==> less[k] == more[k];
    }
  }
}
