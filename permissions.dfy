/**
 * `Permissions` and `PermissionsDatabase` (pks/permissions.py): users belong
 * to groups, groups grant permissions, and a request is allowed when the user
 * passes the white- and blacklists and holds every permission it needs.
 */
module PermissionEngine {
  import opened Wrappers
  import opened OrderedDict
  import opened PyStrings
  import opened Configuration
  import opened Storage

  const ManageSequences := "manage_sequences"
  const ModifyBotBehaviour := "modify_bot_behaviour"
  const AdminAccess := "admin_access"
  /** The permission everybody holds, known or not. */
  const NoPermission := "none"

  /** `permission_sets`: each permission with its description. */
  const PermissionSets: seq<(string, string)> := [
    (ManageSequences, "Can manage new and old sequences."),
    (ModifyBotBehaviour, "Can take measures that have a direct impact on the bot's behaviour."),
    (AdminAccess, "Can take drastic measures that can affect the whole system.")
  ]

  /** `permission_groups`: each group with the permissions it grants, in this order. */
  const PermissionGroups: seq<(string, seq<string>)> := [
    ("guest", []),
    ("member", [ManageSequences]),
    ("manager", [ManageSequences, ModifyBotBehaviour]),
    ("admin", [ManageSequences, ModifyBotBehaviour, AdminAccess])
  ]

  /** The `permissions` column: user id to the list of group names. */
  type Table = Dict<string, seq<string>>

  const PermissionsColumn := "permissions"
  const Schema: seq<(string, Kind)> := [(PermissionsColumn, DictKind)]

  // ---------------------------------------------------------------------------
  // Groups and the permissions they grant.

  /** `get_valid_groups`: the group names of the table, in the table's order. */
  function ValidGroups(): (r: seq<string>)
    ensures r == ["guest", "member", "manager", "admin"]
  {
    seq(|PermissionGroups|, i requires 0 <= i < |PermissionGroups| => PermissionGroups[i].0)
  }

  /** `is_group_valid` */
  predicate IsGroupValid(group: string)
  {
    group in ValidGroups()
  }

  /** The permissions granted by the first `n` groups of the table that `groups` names, in table order. */
  function Granted(groups: seq<string>, n: nat): seq<string>
    requires n <= |PermissionGroups|
  {
    if n == 0 then []
    else Granted(groups, n - 1) + (if PermissionGroups[n - 1].0 in groups then PermissionGroups[n - 1].1 else [])
  }

  /** What `get_groups_permissions` computes from a user's group list: `"none"` first, then each group's grants. */
  function GroupsPermissions(groups: seq<string>): seq<string>
  {
    [NoPermission] + Granted(groups, |PermissionGroups|)
  }

  lemma {:induction false} GrantedMembership(groups: seq<string>, n: nat, p: string)
    requires n <= |PermissionGroups|
    ensures p in Granted(groups, n) <==>
      exists i :: 0 <= i < n && PermissionGroups[i].0 in groups && p in PermissionGroups[i].1
  {
    if n > 0 {
      GrantedMembership(groups, n - 1, p);
      var last := if PermissionGroups[n - 1].0 in groups then PermissionGroups[n - 1].1 else [];
      assert Granted(groups, n) == Granted(groups, n - 1) + last;
      if p in last {
        assert PermissionGroups[n - 1].0 in groups && p in PermissionGroups[n - 1].1;
      }
    }
  }

  /**
   * A user's permissions start with `"none"` and hold `p` exactly when `p` is
   * `"none"` or one of the user's groups grants it.
   */
  lemma GroupsPermissionsMembership(groups: seq<string>, p: string)
    ensures GroupsPermissions(groups)[0] == NoPermission
    ensures p in GroupsPermissions(groups) <==>
      p == NoPermission ||
      exists i :: 0 <= i < |PermissionGroups| && PermissionGroups[i].0 in groups && p in PermissionGroups[i].1
  {
    GrantedMembership(groups, |PermissionGroups|, p);
  }

  /** An unknown user, or one in no group, holds `"none"` and nothing else. */
  lemma NoGroupsOnlyNone(groups: seq<string>)
    requires forall g :: g in groups ==> !IsGroupValid(g)
    ensures GroupsPermissions(groups) == [NoPermission]
  {
    assert Granted(groups, 1) == [];
    assert Granted(groups, 2) == [];
    assert Granted(groups, 3) == [];
  }

  /** Membership of "admin" grants every permission of `permission_sets`. */
  lemma AdminHoldsEverything(groups: seq<string>)
    requires "admin" in groups
    ensures forall i :: 0 <= i < |PermissionSets| ==> PermissionSets[i].0 in GroupsPermissions(groups)
  {
    assert PermissionGroups[3].0 in groups;
    forall i | 0 <= i < |PermissionSets|
      ensures PermissionSets[i].0 in GroupsPermissions(groups)
    {
      GroupsPermissionsMembership(groups, PermissionSets[i].0);
      assert PermissionSets[i].0 in PermissionGroups[3].1;
    }
  }

  // ---------------------------------------------------------------------------
  // The allow/deny decision.

  /** The user is not shut out by a non-empty whitelist or by the blacklist. */
  predicate Admitted(cfg: Config, user: string)
  {
    (|cfg.userWhitelist| > 0 ==> user in cfg.userWhitelist) && user !in cfg.userBlacklist
  }

  /** `is_user_allowed` for a user whose stored groups are `groups`. */
  predicate Allowed(cfg: Config, user: string, groups: seq<string>, needed: seq<string>)
  {
    Admitted(cfg, user) && forall p :: p in needed ==> p in GroupsPermissions(groups)
  }

  /**
   * An admitted member of "admin" is allowed anything built from the three
   * permissions and `"none"`; a user outside the lists is refused everything.
   */
  lemma AdminIsAllowed(cfg: Config, user: string, groups: seq<string>, needed: seq<string>)
    requires "admin" in groups && Admitted(cfg, user)
    requires forall p :: p in needed ==> p in [NoPermission, ManageSequences, ModifyBotBehaviour, AdminAccess]
    ensures Allowed(cfg, user, groups, needed)
  {
    AdminHoldsEverything(groups);
    assert PermissionSets[0].0 == ManageSequences && PermissionSets[1].0 == ModifyBotBehaviour;
    assert PermissionSets[2].0 == AdminAccess;
  }

  /** A user in no group is allowed exactly the requests that need nothing but `"none"`. */
  lemma NoGroupsAllowedOnlyNone(cfg: Config, user: string, needed: seq<string>)
    ensures Allowed(cfg, user, [], needed) <==> Admitted(cfg, user) && forall p :: p in needed ==> p == NoPermission
  {
    NoGroupsOnlyNone([]);
  }

  /** Everybody holds `"none"`: a request needing only it is decided by the white- and blacklists alone. */
  lemma NoneNeedsOnlyAdmission(cfg: Config, user: string, groups: seq<string>)
    ensures Allowed(cfg, user, groups, [NoPermission]) <==> Admitted(cfg, user)
  {
    GroupsPermissionsMembership(groups, NoPermission);
  }

  /** Needing fewer permissions is never refused when needing more is allowed. */
  lemma AllowedFewer(cfg: Config, user: string, groups: seq<string>, needed: seq<string>, fewer: seq<string>)
    requires Allowed(cfg, user, groups, needed)
    requires forall p :: p in fewer ==> p in needed
    ensures Allowed(cfg, user, groups, fewer)
  {
  }

  // ---------------------------------------------------------------------------
  // Group lists: `list(dict.fromkeys(...))` and `dict.pop`.

  /** The position of the first occurrence of `x` in `s`. */
  function FirstIndex(s: seq<string>, x: string): (i: nat)
    requires x in s
    ensures i < |s| && s[i] == x
    ensures forall j :: 0 <= j < i ==> s[j] != x
  {
    if s[0] == x then 0 else 1 + FirstIndex(s[1..], x)
  }

  /** Appending an element leaves the first occurrence of anything already present where it was. */
  lemma {:induction false} FirstIndexAppend(s: seq<string>, last: string, x: string)
    requires x in s
    ensures FirstIndex(s + [last], x) == FirstIndex(s, x)
  {
    if s[0] != x {
      assert (s + [last])[1..] == s[1..] + [last];
      FirstIndexAppend(s[1..], last, x);
    }
  }

  /** `list(dict.fromkeys(s))`: the first occurrence of each element (their order: `DedupKeepsFirstOrder`). */
  function Dedup(s: seq<string>): (r: seq<string>)
    ensures Distinct(r)
    ensures forall x :: x in r <==> x in s
  {
    if s == [] then []
    else
      var front := s[..|s| - 1];
      var last := s[|s| - 1];
      assert forall x :: x in s <==> x in front || x == last;
      var r := Dedup(front);
      if last in front then r else r + [last]
  }

  /** `dict.fromkeys` keeps the elements in the order of their first occurrences in `s`. */
  lemma {:induction false} DedupKeepsFirstOrder(s: seq<string>)
    ensures forall i, j :: 0 <= i < j < |Dedup(s)| ==> FirstIndex(s, Dedup(s)[i]) < FirstIndex(s, Dedup(s)[j])
  {
    if s != [] {
      var front := s[..|s| - 1];
      var last := s[|s| - 1];
      assert s == front + [last];
      DedupKeepsFirstOrder(front);
      var r := Dedup(front);
      forall x | x in front ensures FirstIndex(s, x) == FirstIndex(front, x) {
        FirstIndexAppend(front, last, x);
      }
      if last !in front {
        assert Dedup(s) == r + [last];
        forall i, j | 0 <= i < j < |Dedup(s)| ensures FirstIndex(s, Dedup(s)[i]) < FirstIndex(s, Dedup(s)[j]) {
          assert Dedup(s)[i] == r[i] && r[i] in front;
          if j == |r| {
            assert FirstIndex(s, last) == |front|;
          } else {
            assert Dedup(s)[j] == r[j];
          }
        }
      }
    }
  }

  lemma {:induction false} DedupOfDistinct(s: seq<string>)
    requires Distinct(s)
    ensures Dedup(s) == s
  {
    if s != [] {
      var front := s[..|s| - 1];
      DedupOfDistinct(front);
      assert s[|s| - 1] !in front by {
        forall i | 0 <= i < |front| ensures front[i] != s[|s| - 1] {
          assert front[i] == s[i];
        }
      }
      assert front + [s[|s| - 1]] == s;
    }
  }

  /** The list `add_user_to_group` stores: `group` appended, duplicates dropped. */
  function WithGroup(groups: seq<string>, group: string): seq<string>
  {
    Dedup(groups + [group])
  }

  /** On a duplicate-free list, adding a group keeps the list and appends the group if it is new. */
  lemma WithGroupAppends(groups: seq<string>, group: string)
    requires Distinct(groups)
    ensures WithGroup(groups, group) == if group in groups then groups else groups + [group]
  {
    assert (groups + [group])[..|groups|] == groups;
    DedupOfDistinct(groups);
  }

  /** Adding the same group twice is the same as adding it once. */
  lemma WithGroupIdempotent(groups: seq<string>, group: string)
    ensures WithGroup(WithGroup(groups, group), group) == WithGroup(groups, group)
  {
    var once := WithGroup(groups, group);
    WithGroupAppends(once, group);
    assert group in once;
  }

  /** `[x for x in s if x != item]` */
  function Without(s: seq<string>, item: string): (r: seq<string>)
    ensures forall x :: x in r <==> x in s && x != item
  {
    if s == [] then []
    else
      assert forall x :: x in s <==> x == s[0] || x in s[1..];
      (if s[0] == item then [] else [s[0]]) + Without(s[1..], item)
  }

  lemma {:induction false} WithoutAbsent(s: seq<string>, item: string)
    requires item !in s
    ensures Without(s, item) == s
  {
    if s != [] {
      WithoutAbsent(s[1..], item);
      assert [s[0]] + s[1..] == s;
    }
  }

  /** Removing one element of a duplicate-free list cuts it out and keeps the others in order. */
  lemma {:induction false} WithoutCutsOut(s: seq<string>, i: nat)
    requires Distinct(s) && i < |s|
    ensures Without(s, s[i]) == s[..i] + s[i + 1..]
  {
    if i == 0 {
      assert s[0] !in s[1..] by {
        forall k | 0 <= k < |s[1..]| ensures s[1..][k] != s[0] {
          assert s[1..][k] == s[k + 1];
        }
      }
      WithoutAbsent(s[1..], s[0]);
    } else {
      WithoutCutsOut(s[1..], i - 1);
      assert s[1..][i - 1] == s[i];
      assert s[0] != s[i];
      assert [s[0]] + s[1..][..i - 1] == s[..i];
      assert s[1..][i..] == s[i + 1..];
    }
  }

  /**
   * What `remove_user_from_group` leaves in the list: `None` when `group` is
   * not in it, because `dict.pop` then raises `KeyError`.
   */
  function WithoutGroup(groups: seq<string>, group: string): (r: Option<seq<string>>)
    ensures r.Some? <==> group in groups
    ensures r.Some? ==> Distinct(r.value) && forall x :: x in r.value <==> x in groups && x != group
  {
    if group in groups then
      var r := Without(Dedup(groups), group);
      WithoutKeepsDistinct(Dedup(groups), group);
      Some(r)
    else None
  }

  lemma {:induction false} WithoutKeepsDistinct(s: seq<string>, item: string)
    requires Distinct(s)
    ensures Distinct(Without(s, item))
  {
    if s != [] {
      WithoutKeepsDistinct(s[1..], item);
      assert s[0] !in s[1..] by {
        forall k | 0 <= k < |s[1..]| ensures s[1..][k] != s[0] {
          assert s[1..][k] == s[k + 1];
        }
      }
      assert s[0] !in Without(s[1..], item);
      var rest := Without(s[1..], item);
      var r := Without(s, item);
      if s[0] != item {
        assert r == [s[0]] + rest;
        forall i, j | 0 <= i < j < |r| ensures r[i] != r[j] {
          if i == 0 {
            assert r[j] == rest[j - 1] && rest[j - 1] in rest;
          } else {
            assert r[i] == rest[i - 1] && r[j] == rest[j - 1];
          }
        }
      }
    }
  }

  /** Removing a group that was just added to a list without it gives the list back. */
  lemma AddThenRemove(groups: seq<string>, group: string)
    requires Distinct(groups) && group !in groups
    ensures WithoutGroup(WithGroup(groups, group), group) == Some(groups)
  {
    WithGroupAppends(groups, group);
    var added := groups + [group];
    assert Distinct(added) by {
      forall i, j | 0 <= i < j < |added| ensures added[i] != added[j] {
        if j == |groups| {
          assert added[i] == groups[i] && groups[i] in groups;
        } else {
          assert added[i] == groups[i] && added[j] == groups[j];
        }
      }
    }
    DedupOfDistinct(added);
    assert WithGroup(groups, group) == added;
    assert added[|groups|] == group && group in added;
    WithoutCutsOut(added, |groups|);
    assert added[..|groups|] == groups && added[|groups| + 1..] == [];
    assert Without(Dedup(added), group) == groups;
  }

  // ---------------------------------------------------------------------------
  // The permissions column and how each operation changes it.

  /** `list_groups`: the stored list of a known user, `[]` for an unknown one. */
  function GroupsOf(t: Table, user: string): seq<string>
  {
    if user in t.values then t.values[user] else []
  }

  /** The column after `add_user_to_group(user, group)`. */
  function AddUser(t: Table, user: string, group: string): Table
    requires t.Valid()
  {
    if IsGroupValid(group) then Put(t, user, WithGroup(GroupsOf(t, user), group)) else t
  }

  /** The column after `remove_user_from_group(user, group)`; `None` when `KeyError` is raised. */
  function RemoveUser(t: Table, user: string, group: string): Option<Table>
    requires t.Valid()
  {
    if !IsGroupValid(group) then Some(t)
    else match WithoutGroup(GroupsOf(t, user), group)
      case None => None
      case Some(groups) => Some(Put(t, user, groups))
  }

  /**
   * Adding a user to a valid group creates the user if needed, puts the group
   * in the user's duplicate-free list, and touches no other user. An invalid
   * group leaves the column as it was.
   */
  lemma AddUserEffect(t: Table, user: string, group: string)
    requires t.Valid()
    ensures !IsGroupValid(group) ==> AddUser(t, user, group) == t
    ensures IsGroupValid(group) ==>
      && user in AddUser(t, user, group).values
      && group in GroupsOf(AddUser(t, user, group), user)
      && Distinct(GroupsOf(AddUser(t, user, group), user))
      && (forall g :: g in GroupsOf(t, user) ==> g in GroupsOf(AddUser(t, user, group), user))
    ensures forall u :: u != user ==> GroupsOf(AddUser(t, user, group), u) == GroupsOf(t, u)
  {
  }

  /** Adding a user to a group twice leaves the column as adding once does. */
  lemma AddUserIdempotent(t: Table, user: string, group: string)
    requires t.Valid()
    ensures AddUser(AddUser(t, user, group), user, group) == AddUser(t, user, group)
  {
    if IsGroupValid(group) {
      var once := AddUser(t, user, group);
      WithGroupIdempotent(GroupsOf(t, user), group);
      PutPut(t, user, WithGroup(GroupsOf(t, user), group), WithGroup(GroupsOf(once, user), group));
    }
  }

  /**
   * Removing a user from a valid group raises `KeyError` exactly when the
   * user's list lacks the group; otherwise the group is gone, the other
   * groups stay, and no other user changes.
   */
  lemma RemoveUserEffect(t: Table, user: string, group: string)
    requires t.Valid()
    ensures !IsGroupValid(group) ==> RemoveUser(t, user, group) == Some(t)
    ensures IsGroupValid(group) ==> (RemoveUser(t, user, group).None? <==> group !in GroupsOf(t, user))
    ensures RemoveUser(t, user, group).Some? && IsGroupValid(group) ==>
      var t' := RemoveUser(t, user, group).value;
      && t'.Valid()
      && group !in GroupsOf(t', user)
      && (forall g :: g != group ==> (g in GroupsOf(t', user) <==> g in GroupsOf(t, user)))
      && (forall u :: u != user ==> GroupsOf(t', u) == GroupsOf(t, u))
  {
  }

  /** Removing a group just given to a user restores the user's previous list. */
  lemma AddThenRemoveUser(t: Table, user: string, group: string)
    requires t.Valid() && IsGroupValid(group)
    requires Distinct(GroupsOf(t, user)) && group !in GroupsOf(t, user)
    ensures RemoveUser(AddUser(t, user, group), user, group).Some?
    ensures GroupsOf(RemoveUser(AddUser(t, user, group), user, group).value, user) == GroupsOf(t, user)
  {
    AddThenRemove(GroupsOf(t, user), group);
  }

  function InGroup(group: string): seq<string> -> bool
  {
    groups => group in groups
  }

  /** `get_group_members`: the users whose list holds `group`, in column order; none for an invalid group. */
  function Members(t: Table, group: string): (r: seq<string>)
    requires t.Valid()
    ensures forall u :: u in r <==> IsGroupValid(group) && u in t.values && group in t.values[u]
  {
    if IsGroupValid(group) then Select(t.keys, t.values, InGroup(group)) else []
  }

  /** After being added to a valid group the user is listed among its members; removed, the user is not. */
  lemma MembersAfterChange(t: Table, user: string, group: string)
    requires t.Valid() && IsGroupValid(group)
    ensures user in Members(AddUser(t, user, group), group)
    ensures RemoveUser(t, user, group).Some? ==> user !in Members(RemoveUser(t, user, group).value, group)
    ensures forall u :: u != user ==> (u in Members(AddUser(t, user, group), group) <==> u in Members(t, group))
  {
    AddUserEffect(t, user, group);
    RemoveUserEffect(t, user, group);
  }

  /** The column after `add_user_to_group(u, "admin")` for each `u` of `users` in turn. */
  function AddAdmins(t: Table, users: seq<string>): (r: Table)
    requires t.Valid()
    ensures r.Valid()
    decreases |users|
  {
    if users == [] then t else AddAdmins(AddUser(t, users[0], "admin"), users[1..])
  }

  /** The accounts `set_telegram_admins` makes admins: the system account "1", then `str(admin)` for each configured admin. */
  function BootstrapAdmins(cfg: Config): (r: seq<string>)
    ensures |r| == |cfg.adminList| + 1 && r[0] == "1"
    ensures forall i :: 0 <= i < |cfg.adminList| ==> r[i + 1] == IntToString(cfg.adminList[i])
  {
    ["1"] + seq(|cfg.adminList|, i requires 0 <= i < |cfg.adminList| => IntToString(cfg.adminList[i]))
  }

  /** A user who already holds "admin" in a duplicate-free list is not changed by being made admin again. */
  lemma AddAdminNoop(t: Table, user: string)
    requires t.Valid() && "admin" in GroupsOf(t, user) && Distinct(GroupsOf(t, user))
    ensures AddUser(t, user, "admin") == t
  {
    WithGroupAppends(GroupsOf(t, user), "admin");
    PutSame(t, user);
  }

  /** After `set_telegram_admins` every listed account is in "admin", with a duplicate-free list. */
  lemma {:induction false} AddAdminsEstablishes(t: Table, users: seq<string>)
    requires t.Valid()
    ensures forall u :: u in users ==> "admin" in GroupsOf(AddAdmins(t, users), u) && Distinct(GroupsOf(AddAdmins(t, users), u))
    ensures forall u :: u !in users ==> GroupsOf(AddAdmins(t, users), u) == GroupsOf(t, u)
    decreases |users|
  {
    if users != [] {
      var t1 := AddUser(t, users[0], "admin");
      AddUserEffect(t, users[0], "admin");
      AddAdminsEstablishes(t1, users[1..]);
      forall u | u in users
        ensures "admin" in GroupsOf(AddAdmins(t, users), u) && Distinct(GroupsOf(AddAdmins(t, users), u))
      {
        if u !in users[1..] {
          assert u == users[0];
        }
      }
    }
  }

  /** Accounts that are all admins already stay as they are. */
  lemma {:induction false} AddAdminsNoop(t: Table, users: seq<string>)
    requires t.Valid()
    requires forall u :: u in users ==> "admin" in GroupsOf(t, u) && Distinct(GroupsOf(t, u))
    ensures AddAdmins(t, users) == t
    decreases |users|
  {
    if users != [] {
      AddAdminNoop(t, users[0]);
      AddAdminsNoop(t, users[1..]);
    }
  }

  /** Bootstrapping the admins a second time, as on every restart, changes nothing. */
  lemma AddAdminsIdempotent(t: Table, users: seq<string>)
    requires t.Valid()
    ensures AddAdmins(AddAdmins(t, users), users) == AddAdmins(t, users)
  {
    AddAdminsEstablishes(t, users);
    AddAdminsNoop(AddAdmins(t, users), users);
  }

  // ---------------------------------------------------------------------------
  // The classes.

  lemma UpdateTwice<A, B>(m: map<A, B>, k: A, x: B, y: B)
    ensures m[k := x][k := y] == m[k := y]
  {
  }

  /** The state a persisted permissions shelf must be in: a dict under "permissions", if anything. */
  ghost predicate PersistedOk(persisted: Shelf<string, seq<string>>)
  {
    PermissionsColumn in persisted ==>
      persisted[PermissionsColumn].DictColumn? && persisted[PermissionsColumn].entries.Valid()
  }

  /** The outcome of `remove_user_from_group`: it returns, or `dict.pop` raises `KeyError`. */
  datatype RemoveOutcome = Removed | KeyError(key: string)

  class PermissionsDatabase {
    const db: Database<string, seq<string>>

    ghost predicate Valid()
      reads this, db
    {
      |db.columns| > 0 && db.IsDict(db.columns[0])
    }

    /** `db_columns[0]`, where the user table lives. */
    function Column(): string
      reads this, db
      requires Valid()
    {
      db.columns[0]
    }

    function Table(): Table
      reads this, db
      requires Valid()
    {
      db.DictOf(Column())
    }

    constructor (persisted: Shelf<string, seq<string>>)
      requires PersistedOk(persisted)
      ensures Valid() && fresh(db)
      ensures db.dbName == "db/permissions.db" && Column() == PermissionsColumn
      ensures db.shelf == Opened(persisted, Schema)
      ensures Table() == if PermissionsColumn in persisted then persisted[PermissionsColumn].entries else Empty()
    {
      db := new Database("db/permissions.db", Schema, persisted);
      new;
      assert Names(Schema) == [PermissionsColumn];
      if PermissionsColumn in persisted {
        OpenedKeepsExisting(persisted, Schema, PermissionsColumn);
      } else {
        OpenedCreatesMissing(persisted, Schema, 0);
      }
    }

    /** `list_groups` */
    function ListGroups(user: string): (r: seq<string>)
      reads this, db
      requires Valid()
      ensures r == GroupsOf(Table(), user)
    {
      if db.KeyExists(Column(), user) then db.Query(Column(), user) else []
    }

    /** `create_user`: `insert_dict(column, {user: []})`, whether or not the user exists. */
    method CreateUser(user: string)
      requires Valid()
      modifies db
      ensures Valid() && Column() == old(Column()) && db.columns == old(db.columns)
      ensures db.shelf == old(db.shelf)[Column() := DictColumn(Put(old(Table()), user, []))]
    {
      MergeSingleton(Table(), user, []);
      db.InsertDict(Column(), Singleton(user, []));
    }

    /** `add_user_to_group`: append, drop duplicates, write the list back. */
    method AddUserToGroup(user: string, group: string)
      requires Valid()
      modifies db
      ensures Valid() && Column() == old(Column()) && db.columns == old(db.columns)
      ensures db.shelf == old(db.shelf)[Column() := DictColumn(Put(old(Table()), user, WithGroup(old(ListGroups(user)), group)))]
    {
      var groups := ListGroups(user);
      groups := groups + [group];
      groups := Dedup(groups);
      db.Update(Column(), user, groups);
    }

    /** `remove_user_from_group`: drop duplicates, `pop` the group, write the list back. */
    method RemoveUserFromGroup(user: string, group: string) returns (r: RemoveOutcome)
      requires Valid()
      modifies db
      ensures Valid() && Column() == old(Column()) && db.columns == old(db.columns)
      ensures r == (if group in old(ListGroups(user)) then Removed else KeyError(group))
      ensures r.KeyError? ==> db.shelf == old(db.shelf)
      ensures r.Removed? ==>
        db.shelf == old(db.shelf)[Column() := DictColumn(Put(old(Table()), user, WithoutGroup(old(ListGroups(user)), group).value))]
    {
      var groups := ListGroups(user);
      var keys := Dedup(groups);
      if group !in keys {
        return KeyError(group);
      }
      keys := Without(keys, group);
      db.Update(Column(), user, keys);
      r := Removed;
    }
  }

  class Permissions {
    const cfg: Config
    const pdb: PermissionsDatabase

    ghost predicate Valid()
      reads this, pdb, pdb.db
    {
      pdb.Valid()
    }

    function Table(): Table
      reads this, pdb, pdb.db
      requires Valid()
    {
      pdb.Table()
    }

    constructor (cfg: Config, persisted: Shelf<string, seq<string>>)
      requires PersistedOk(persisted)
      ensures Valid() && fresh(pdb) && fresh(pdb.db) && this.cfg == cfg
      ensures Table() == if PermissionsColumn in persisted then persisted[PermissionsColumn].entries else Empty()
    {
      this.cfg := cfg;
      pdb := new PermissionsDatabase(persisted);
    }

    /** `user_exists`: whether the user has an entry in the table; a user without one is in no group. */
    predicate UserExists(user: string)
      reads this, pdb, pdb.db
      requires Valid()
      ensures UserExists(user) <==> user in Table().keys
      ensures !UserExists(user) ==> GroupsOf(Table(), user) == []
    {
      pdb.db.KeyExists(pdb.Column(), user)
    }

    /** `create_user`: only a user not yet in the column is created, with no groups. */
    method CreateUser(user: string)
      requires Valid()
      modifies pdb.db
      ensures Valid() && pdb.Column() == old(pdb.Column()) && pdb.db.columns == old(pdb.db.columns)
      ensures old(UserExists(user)) ==> pdb.db.shelf == old(pdb.db.shelf)
      ensures !old(UserExists(user)) ==> pdb.db.shelf == old(pdb.db.shelf)[pdb.Column() := DictColumn(Put(old(Table()), user, []))]
      ensures UserExists(user) && GroupsOf(Table(), user) == old(GroupsOf(Table(), user))
    {
      if !UserExists(user) {
        pdb.CreateUser(user);
      }
    }

    /** `add_user_to_group`: nothing for an invalid group; else create the user if needed and add the group. */
    method AddUserToGroup(user: string, group: string)
      requires Valid()
      modifies pdb.db
      ensures Valid() && pdb.Column() == old(pdb.Column()) && pdb.db.columns == old(pdb.db.columns)
      ensures pdb.db.shelf == old(pdb.db.shelf)[pdb.Column() := DictColumn(AddUser(old(Table()), user, group))]
    {
      if !IsGroupValid(group) {
        assert old(pdb.db.shelf)[pdb.Column() := DictColumn(Table())] == old(pdb.db.shelf);
        return;
      }
      ghost var t0 := Table();
      ghost var s0 := pdb.db.shelf;
      ghost var c := pdb.Column();
      if !UserExists(user) {
        CreateUser(user);
        assert pdb.db.shelf == s0[c := DictColumn(Put(t0, user, []))];
        assert Table() == Put(t0, user, []);
        assert pdb.ListGroups(user) == [];
        ghost var s1 := pdb.db.shelf;
        pdb.AddUserToGroup(user, group);
        assert pdb.db.shelf == s1[c := DictColumn(Put(Put(t0, user, []), user, WithGroup([], group)))];
        PutPut(t0, user, [], WithGroup([], group));
        assert GroupsOf(t0, user) == [];
      } else {
        pdb.AddUserToGroup(user, group);
      }
    }

    /** `remove_user_from_group`: nothing for an invalid group; else the database's removal, `KeyError` included. */
    method RemoveUserFromGroup(user: string, group: string) returns (r: RemoveOutcome)
      requires Valid()
      modifies pdb.db
      ensures Valid() && pdb.Column() == old(pdb.Column()) && pdb.db.columns == old(pdb.db.columns)
      ensures r.KeyError? <==> RemoveUser(old(Table()), user, group).None?
      ensures r.KeyError? ==> r.key == group && pdb.db.shelf == old(pdb.db.shelf)
      ensures r.Removed? ==>
        pdb.db.shelf == old(pdb.db.shelf)[pdb.Column() := DictColumn(RemoveUser(old(Table()), user, group).value)]
    {
      if !IsGroupValid(group) {
        assert old(pdb.db.shelf)[pdb.Column() := DictColumn(Table())] == old(pdb.db.shelf);
        return Removed;
      }
      r := pdb.RemoveUserFromGroup(user, group);
    }

    /** `set_telegram_admins`: the system account "1" and every configured admin join "admin". */
    method SetTelegramAdmins()
      requires Valid()
      modifies pdb.db
      ensures Valid() && pdb.Column() == old(pdb.Column()) && pdb.db.columns == old(pdb.db.columns)
      ensures pdb.db.shelf == old(pdb.db.shelf)[pdb.Column() := DictColumn(AddAdmins(old(Table()), BootstrapAdmins(cfg)))]
    {
      var admins := BootstrapAdmins(cfg);
      ghost var c := pdb.Column();
      ghost var cols := pdb.db.columns;
      ghost var s0 := pdb.db.shelf;
      ghost var t := Table();
      ghost var goal := AddAdmins(t, admins);
      var i := 0;
      while i < |admins|
        invariant 0 <= i <= |admins|
        invariant Valid() && pdb.Column() == c && pdb.db.columns == cols
        invariant t.Valid() && AddAdmins(t, admins[i..]) == goal
        invariant pdb.db.shelf == s0[c := DictColumn(t)]
      {
        assert admins[i..][1..] == admins[i + 1..];
        ghost var s1 := pdb.db.shelf;
        AddUserToGroup(admins[i], "admin");
        ghost var t' := AddUser(t, admins[i], "admin");
        assert pdb.db.shelf == s1[c := DictColumn(t')];
        UpdateTwice(s0, c, DictColumn(t), DictColumn(t'));
        t := t';
        i := i + 1;
      }
      assert admins[i..] == [];
    }

    /** `get_group_members`: the loop over the users of the column. */
    method GetGroupMembers(group: string) returns (members: seq<string>)
      requires Valid()
      ensures members == Members(Table(), group)
      ensures forall u :: u in members <==> IsGroupValid(group) && u in Table().values && group in Table().values[u]
      ensures Distinct(members)
    {
      members := [];
      if group in ValidGroups() {
        var raw := Table();
        var users := raw.keys;
        var i := 0;
        while i < |users|
          invariant 0 <= i <= |users|
          invariant members == Select(users[..i], raw.values, InGroup(group))
        {
          assert users[..i + 1][..i] == users[..i];
          if group in raw.values[users[i]] {
            members := members + [users[i]];
          }
          i := i + 1;
        }
        assert users[..i] == users;
        SelectDistinct(users, raw.values, InGroup(group));
      }
    }

    /** `get_groups_permissions`: the loop over `permission_groups`. */
    method GetGroupsPermissions(user: string) returns (perms: seq<string>)
      requires Valid()
      ensures perms == GroupsPermissions(GroupsOf(Table(), user))
      ensures |perms| >= 1 && perms[0] == NoPermission
    {
      var uGroups := pdb.ListGroups(user);
      perms := [NoPermission];
      var i := 0;
      while i < |PermissionGroups|
        invariant 0 <= i <= |PermissionGroups|
        invariant perms == [NoPermission] + Granted(uGroups, i)
      {
        var group := PermissionGroups[i].0;
        if group in uGroups {
          var grants := PermissionGroups[i].1;
          var j := 0;
          while j < |grants|
            invariant 0 <= j <= |grants|
            invariant perms == [NoPermission] + Granted(uGroups, i) + grants[..j]
          {
            perms := perms + [grants[j]];
            j := j + 1;
          }
          assert grants[..j] == grants;
        }
        assert Granted(uGroups, i + 1) == Granted(uGroups, i) + (if group in uGroups then PermissionGroups[i].1 else []);
        i := i + 1;
      }
    }

    /** `is_user_allowed` */
    method IsUserAllowed(user: string, needed: seq<string>) returns (ok: bool)
      requires Valid()
      ensures ok == Allowed(cfg, user, GroupsOf(Table(), user), needed)
    {
      if |cfg.userWhitelist| > 0 {
        if user !in cfg.userWhitelist {
          return false;
        }
      }
      if user in cfg.userBlacklist {
        return false;
      }
      var userPermissions := GetGroupsPermissions(user);
      if !(forall i | 0 <= i < |needed| :: needed[i] in userPermissions) {
        return false;
      }
      return true;
    }
  }
}
