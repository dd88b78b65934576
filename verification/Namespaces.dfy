/** The namespace store: one bucket a namespace, holding plain keys and a bucket of roles. */
module Namespaces {
  import opened CommaLists

  datatype Bucket = Bucket(keys: map<string, string>, roles: map<string, string>)

  type Store = map<string, Bucket>

  /** The last two are the errors of the database. */
  datatype Error = NoError | NamespaceDoesNotExist | NameRequired | BucketNotFound

  const FRESH := Bucket(map[], map[])

  // ------------------------------------------- what each operation leaves

  /** The value under a key; a missing key reads as an empty value. */
  function Lookup(m: map<string, string>, key: string): string {
    if key in m then m[key] else ""
  }

  /** Writing a key; an empty key is refused. */
  function Put(m: map<string, string>, key: string, value: string): map<string, string> {
    if key == "" then m else m[key := value]
  }

  function WithRoles(st: Store, name: string, roles: map<string, string>): Store
    requires name in st
  {
    st[name := st[name].(roles := roles)]
  }

  function Created(st: Store, name: string): Store {
    if name == "" || name in st then st else st[name := FRESH]
  }

  function Deleted(st: Store, name: string): Store {
    st - {name}
  }

  function RoleAdded(st: Store, name: string, role: string): Store {
    if name !in st || role in st[name].roles then st
    else WithRoles(st, name, Put(st[name].roles, role, ""))
  }

  function RoleRemoved(st: Store, name: string, role: string): Store {
    if name !in st then st else WithRoles(st, name, st[name].roles - {role})
  }

  function Granted(st: Store, name: string, role: string, permissions: seq<string>): Store {
    if name !in st then st
    else WithRoles(st, name, Put(st[name].roles, role, Appended(Lookup(st[name].roles, role), permissions)))
  }

  function Revoked(st: Store, name: string, role: string, permission: string): Store {
    if name !in st || Lookup(st[name].roles, role) == "" then st
    else WithRoles(st, name, Put(st[name].roles, role, Removed(st[name].roles[role], permission)))
  }

  function UserAdded(st: Store, name: string, user: string): Store {
    if name !in st then st
    else st[name := st[name].(keys := st[name].keys["users" := Appended(Lookup(st[name].keys, "users"), [user])])]
  }

  function UserRemoved(st: Store, name: string, user: string): Store {
    if name !in st || Lookup(st[name].keys, "users") == "" then st
    else st[name := st[name].(keys := st[name].keys["users" := Removed(st[name].keys["users"], user)])]
  }

  /** A child gets its parent's roles. The list of users is written under itself as the key,
      unless that key is empty or is the one of the roles bucket. */
  function ChildBucket(parent: Bucket, child: Bucket): Bucket {
    var users := Lookup(parent.keys, "users");
    Bucket(if users == "roles" then child.keys else Put(child.keys, users, users), child.roles + parent.roles)
  }

  function ChildCreated(st: Store, parent: string, child: string): Store {
    if parent !in st || child == "" then st
    else st[child := ChildBucket(st[parent], if child in st then st[child] else FRESH)]
  }

  predicate Permits(st: Store, name: string, role: string, permission: string) {
    name in st && Holds(Lookup(st[name].roles, role), permission)
  }

  predicate Admits(st: Store, name: string, user: string) {
    name in st && Holds(Lookup(st[name].keys, "users"), user)
  }

  /** No bucket and no role has an empty name. */
  ghost predicate Sound(st: Store) {
    "" !in st && forall name :: name in st ==> "" !in st[name].roles
  }

  // -------------------------------------- what the strings are meant to be

  /** For each namespace, for each role, the permissions it gives. */
  type Rights = map<string, map<string, set<string>>>

  function RoleRights(roles: map<string, string>): map<string, set<string>> {
    map role | role in roles :: Names(roles[role])
  }

  function RightsOf(st: Store): Rights {
    map name | name in st :: RoleRights(st[name].roles)
  }

  predicate Allows(rights: Rights, name: string, role: string, permission: string) {
    name in rights && role in rights[name] && permission in rights[name][role]
  }

  function Allow(rights: Rights, name: string, role: string, permissions: set<string>): Rights {
    if name !in rights || role == "" then rights
    else
      var before := if role in rights[name] then rights[name][role] else {};
      rights[name := rights[name][role := before + permissions]]
  }

  function Forbid(rights: Rights, name: string, role: string, permission: string): Rights {
    if name !in rights || role !in rights[name] then rights
    else rights[name := rights[name][role := rights[name][role] - {permission}]]
  }

  function Introduce(rights: Rights, name: string, role: string): Rights {
    if name !in rights || role == "" || role in rights[name] then rights
    else rights[name := rights[name][role := {}]]
  }

  function Dismiss(rights: Rights, name: string, role: string): Rights {
    if name !in rights then rights else rights[name := rights[name] - {role}]
  }

  function Found(rights: Rights, name: string): Rights {
    if name == "" || name in rights then rights else rights[name := map[]]
  }

  function Inherit(rights: Rights, parent: string, child: string): Rights {
    if parent !in rights || child == "" then rights
    else rights[child := (if child in rights then rights[child] else map[]) + rights[parent]]
  }

  lemma RightsUpdated(st: Store, name: string, b: Bucket)
    ensures RightsOf(st[name := b]) == RightsOf(st)[name := RoleRights(b.roles)]
  {
  }

  lemma RightsPut(roles: map<string, string>, role: string, value: string)
    requires role != ""
    ensures RoleRights(Put(roles, role, value)) == RoleRights(roles)[role := Names(value)]
  {
  }

  lemma NamesOfNothing()
    ensures Names("") == {}
  {
  }

  /** Asking the string answers what the set of permissions says. */
  lemma PermitsExactly(st: Store, name: string, role: string, permission: string)
    requires permission != ""
    ensures Permits(st, name, role, permission) <==> Allows(RightsOf(st), name, role, permission)
  {
    NamesOfNothing();
  }

  /** Granting gives the role exactly the permissions named, if and only if none of them holds a comma. */
  lemma GrantsExactly(st: Store, name: string, role: string, permissions: seq<string>)
    requires name in st && role != ""
    ensures RightsOf(Granted(st, name, role, permissions)) == Allow(RightsOf(st), name, role, Given(permissions))
        <==> forall k :: 0 <= k < |permissions| ==> ',' !in permissions[k]
  {
    hide Names, Appended, Given;
    var roles := st[name].roles;
    var before := Lookup(roles, role);
    NamesOfNothing();
    assert Names(before) == if role in roles then RoleRights(roles)[role] else {};
    AppendsExactly(before, permissions);
    RightsPut(roles, role, Appended(before, permissions));
    RightsUpdated(st, name, st[name].(roles := Put(roles, role, Appended(before, permissions))));
    var left, right := RightsOf(Granted(st, name, role, permissions)), Allow(RightsOf(st), name, role, Given(permissions));
    assert left[name][role] == Names(Appended(before, permissions));
    assert right[name][role] == Names(before) + Given(permissions);
  }

  /** A role without a name never gets anything. */
  lemma GrantsNobody(st: Store, name: string, permissions: seq<string>)
    ensures Granted(st, name, "", permissions) == st
  {
    if name in st {
      assert st[name].(roles := st[name].roles) == st[name];
    }
  }

  lemma RevokesExactly(st: Store, name: string, role: string, permission: string)
    requires Sound(st)
    ensures RightsOf(Revoked(st, name, role, permission)) == Forbid(RightsOf(st), name, role, permission)
  {
    hide Names, Removed;
    NamesOfNothing();
    if name in st && role in st[name].roles {
      var roles := st[name].roles;
      RemovesExactly(roles[role], permission);
      RightsPut(roles, role, Removed(roles[role], permission));
      RightsUpdated(st, name, st[name].(roles := Put(roles, role, Removed(roles[role], permission))));
      assert RoleRights(roles)[role := RoleRights(roles)[role]] == RoleRights(roles);
      if roles[role] == "" {
        assert RoleRights(roles)[role] - {permission} == RoleRights(roles)[role];
      }
    }
  }

  lemma RolesComeAndGo(st: Store, name: string, role: string)
    ensures RightsOf(RoleAdded(st, name, role)) == Introduce(RightsOf(st), name, role)
    ensures RightsOf(RoleRemoved(st, name, role)) == Dismiss(RightsOf(st), name, role)
  {
    hide Names;
    NamesOfNothing();
    if name in st {
      var roles := st[name].roles;
      assert RoleRights(roles - {role}) == RoleRights(roles) - {role};
      RightsUpdated(st, name, st[name].(roles := roles - {role}));
      if role != "" {
        RightsPut(roles, role, "");
        RightsUpdated(st, name, st[name].(roles := Put(roles, role, "")));
      } else {
        assert st[name].(roles := roles) == st[name];
      }
    }
  }

  lemma UsersGiveNoRights(st: Store, name: string, user: string)
    ensures RightsOf(UserAdded(st, name, user)) == RightsOf(st) == RightsOf(UserRemoved(st, name, user))
  {
    hide Names, Appended, Removed;
  }

  lemma RightsMerge(a: map<string, string>, b: map<string, string>)
    ensures RoleRights(a + b) == RoleRights(a) + RoleRights(b)
  {
    hide Names;
  }

  /** A new namespace starts with no rights at all. */
  lemma RightsOfTheNew(st: Store, name: string)
    ensures RightsOf(Created(st, name)) == Found(RightsOf(st), name)
  {
    hide Names;
    assert RoleRights(FRESH.roles) == map[];
  }

  /** A child starts with the rights its parent has at that moment. */
  lemma RightsOfTheChild(st: Store, parent: string, name: string)
    ensures RightsOf(ChildCreated(st, parent, name)) == Inherit(RightsOf(st), parent, name)
  {
    hide RoleRights, Put;
    if parent in st && name != "" {
      var child := if name in st then st[name] else FRESH;
      RightsMerge(child.roles, st[parent].roles);
      RightsUpdated(st, name, ChildBucket(st[parent], child));
      assert RoleRights(FRESH.roles) == map[] by { RightsOfFresh(); }
    }
  }

  lemma RightsOfFresh()
    ensures RoleRights(FRESH.roles) == map[]
  {
  }

  /** The interface promises a child with the same users. A new child does have them, if and only if
      the parent has no users or its whole list reads "users". */
  lemma ChildUsersExactly(st: Store, parent: string, child: string)
    requires parent in st && child !in st && child != ""
    ensures (forall user :: Admits(ChildCreated(st, parent, child), child, user) <==> Admits(st, parent, user))
        <==> Lookup(st[parent].keys, "users") in {"", "users"}
  {
    var users := Lookup(st[parent].keys, "users");
    var after := ChildCreated(st, parent, child);
    if users !in {"", "users"} {
      assert Lookup(after[child].keys, "users") == "";
      assert Admits(st, parent, Split(users)[0]);
      assert !Admits(after, child, Split(users)[0]);
    } else {
      assert Lookup(after[child].keys, "users") == users;
    }
  }

  // ---------------------------------------------------------- the store

  class NamespaceStore {
    var buckets: Store

    constructor ()
      ensures buckets == map[]
    {
      buckets := map[];
    }

    method Create(name: string) returns (err: Error)
      modifies this
      ensures buckets == Created(old(buckets), name)
      ensures err == if name == "" then NameRequired else NoError
    {
      if name == "" {
        return NameRequired;
      }
      if name !in buckets {
        buckets := buckets[name := FRESH];
      }
      err := NoError;
    }

    method Get(name: string) returns (err: Error)
      ensures err == if name in buckets then NoError else NamespaceDoesNotExist
    {
      err := if name in buckets then NoError else NamespaceDoesNotExist;
    }

    method Delete(name: string) returns (err: Error)
      modifies this
      ensures buckets == Deleted(old(buckets), name)
      ensures err == if name in old(buckets) then NoError else BucketNotFound
    {
      if name !in buckets {
        return BucketNotFound;
      }
      buckets := buckets - {name};
      err := NoError;
    }

    method AddRole(name: string, role: string) returns (err: Error)
      modifies this
      ensures buckets == RoleAdded(old(buckets), name, role)
      ensures err == if name in old(buckets) then NoError else NamespaceDoesNotExist
    {
      if name !in buckets {
        return NamespaceDoesNotExist;
      }
      var roles := buckets[name].roles;
      if role !in roles {
        roles := Put(roles, role, "");
        buckets := WithRoles(buckets, name, roles);
      }
      err := NoError;
    }

    method RemoveRole(name: string, role: string) returns (err: Error)
      modifies this
      ensures buckets == RoleRemoved(old(buckets), name, role)
      ensures err == if name in old(buckets) then NoError else NamespaceDoesNotExist
    {
      if name !in buckets {
        return NamespaceDoesNotExist;
      }
      buckets := WithRoles(buckets, name, buckets[name].roles - {role});
      err := NoError;
    }

    method GrantPermissions(name: string, role: string, permissions: seq<string>) returns (err: Error)
      modifies this
      ensures buckets == Granted(old(buckets), name, role, permissions)
      ensures err == if name in old(buckets) then NoError else NamespaceDoesNotExist
    {
      if name !in buckets {
        return NamespaceDoesNotExist;
      }
      var perms := Lookup(buckets[name].roles, role);
      if |perms| > 0 {
        perms := Join([perms, Join(permissions)]);
      } else {
        perms := Join(permissions);
      }
      buckets := WithRoles(buckets, name, Put(buckets[name].roles, role, perms));
      err := NoError;
    }

    method RevokePermission(name: string, role: string, permission: string) returns (err: Error)
      modifies this
      ensures buckets == Revoked(old(buckets), name, role, permission)
      ensures err == if name in old(buckets) then NoError else NamespaceDoesNotExist
    {
      if name !in buckets {
        return NamespaceDoesNotExist;
      }
      var perms := Lookup(buckets[name].roles, role);
      if |perms| > 0 {
        var list := Filter(Split(perms), permission);
        buckets := WithRoles(buckets, name, Put(buckets[name].roles, role, Join(list)));
      }
      err := NoError;
    }

    /** The loop that rebuilds a list without one of its items. */
    static method Filter(items: seq<string>, gone: string) returns (list: seq<string>)
      ensures list == Without(items, gone)
    {
      hide Without;
      list := [];
      WithoutNone(gone);
      assert items[0..] == items;
      for i := 0 to |items|
        invariant list + Without(items[i..], gone) == Without(items, gone)
      {
        WithoutNext(items, i, gone);
        if items[i] != gone {
          list := list + [items[i]];
        }
      }
      assert items[|items|..] == [];
    }

    method HasPermission(name: string, role: string, permission: string) returns (allow: bool)
      ensures allow == Permits(buckets, name, role, permission)
    {
      if name !in buckets {
        return false;
      }
      var perms := Lookup(buckets[name].roles, role);
      allow := false;
      if |perms| > 0 {
        allow := Find(Split(perms), permission);
      }
    }

    /** The loop that looks for an item and stops at the first. */
    static method Find(items: seq<string>, item: string) returns (found: bool)
      ensures found == (item in items)
    {
      found := false;
      for i := 0 to |items|
        invariant !found
        invariant item !in items[..i]
      {
        if items[i] == item {
          found := true;
          break;
        }
      }
    }

    method AddUser(name: string, user: string) returns (err: Error)
      modifies this
      ensures buckets == UserAdded(old(buckets), name, user)
      ensures err == if name in old(buckets) then NoError else NamespaceDoesNotExist
    {
      if name !in buckets {
        return NamespaceDoesNotExist;
      }
      var users := Lookup(buckets[name].keys, "users");
      if |users| > 0 {
        users := Join([users, user]);
      } else {
        users := user;
      }
      buckets := buckets[name := buckets[name].(keys := buckets[name].keys["users" := users])];
      err := NoError;
    }

    method RemoveUser(name: string, user: string) returns (err: Error)
      modifies this
      ensures buckets == UserRemoved(old(buckets), name, user)
      ensures err == if name in old(buckets) then NoError else NamespaceDoesNotExist
    {
      if name !in buckets {
        return NamespaceDoesNotExist;
      }
      var users := Lookup(buckets[name].keys, "users");
      if |users| > 0 {
        var updated := Filter(Split(users), user);
        buckets := buckets[name := buckets[name].(keys := buckets[name].keys["users" := Join(updated)])];
      }
      err := NoError;
    }

    method HasAccess(name: string, user: string) returns (access: bool)
      ensures access == Admits(buckets, name, user)
    {
      if name !in buckets {
        return false;
      }
      var users := Lookup(buckets[name].keys, "users");
      access := false;
      if |users| > 0 {
        access := Find(Split(users), user);
      }
    }

    method CreateChild(parent: string, child: string) returns (err: Error)
      modifies this
      ensures buckets == ChildCreated(old(buckets), parent, child)
      ensures err == if parent !in old(buckets) then NamespaceDoesNotExist else if child == "" then NameRequired else NoError
    {
      if parent !in buckets {
        return NamespaceDoesNotExist;
      }
      if child == "" {
        return NameRequired;
      }
      var bucket := if child in buckets then buckets[child] else FRESH;
      var roles := CopyRoles(buckets[parent].roles, bucket.roles);
      var users := Lookup(buckets[parent].keys, "users");
      var keys := bucket.keys;
      if users != "roles" {
        keys := Put(keys, users, users);
      }
      buckets := buckets[child := Bucket(keys, roles)];
      err := NoError;
    }

    /** Writing every role of one bucket into another, one at a time and in any order. */
    static method CopyRoles(from: map<string, string>, into: map<string, string>) returns (roles: map<string, string>)
      ensures roles == into + from
    {
      roles := into;
      var left := from.Keys;
      while left != {}
        invariant left <= from.Keys
        invariant roles.Keys == into.Keys + (from.Keys - left)
        invariant forall role :: role in roles ==>
                                   roles[role] == if role in from.Keys - left then from[role] else into[role]
      {
        var role :| role in left;
        roles := roles[role := from[role]];
        left := left - {role};
      }
    }
  }
}
