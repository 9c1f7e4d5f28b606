/** The management commands that fill a development database with groups
    and users: create_example_groups and populate_users_and_groups of
    adit_radis_shared/common/management/commands, and
    populate_users_and_groups and populate_db of the example project. The
    Faker choices are parameters: `draw(j)` is the number `random_element`
    turns into a group for the `j`-th user of the list it walks, and
    `fakeName(i)` the user name made up for the `i`-th user. `hash` is
    `hash_token` and `fractionLength` is FRACTION_LENGTH, neither of which
    is part of this model. */
module Seeding {
  import opened Wrappers
  import opened Accounts

  const PredefinedGroups: seq<string> := ["Thoraxklinik", "Allgemeinradiologie", "Neuroradiologie", "Studienzentrum"]

  /** The name of the `i`-th group created: a predefined one while there
      are any left, then one the group factory makes up. */
  function PredefinedOrGenerated(i: nat): GroupName {
    if i < |PredefinedGroups| then Named(PredefinedGroups[i]) else Generated
  }

  /** The names of the first `n` groups created. */
  function SeedGroupNames(n: nat): (r: seq<GroupName>)
    ensures |r| == n
    ensures forall i :: 0 <= i < n ==> r[i] == PredefinedOrGenerated(i)
  {
    seq(n, i requires 0 <= i < n => PredefinedOrGenerated(i))
  }

  /** The first `min(n, 4)` names are the predefined ones in order, and
      the rest are made up. */
  lemma SeedGroupNamesShape(n: nat)
    ensures forall i :: 0 <= i < n && i < |PredefinedGroups| ==> SeedGroupNames(n)[i] == Named(PredefinedGroups[i])
    ensures forall i :: |PredefinedGroups| <= i < n ==> SeedGroupNames(n)[i] == Generated
    ensures SeedGroupNames(n) <= SeedGroupNames(n + 1)
  {
  }

  /** The group ids `lo` up to `hi - 1`. */
  function Range(lo: nat, hi: nat): (r: set<GroupId>)
    ensures forall g :: g in r <==> lo <= g < hi
    decreases hi - lo
  {
    if hi <= lo then {} else Range(lo, hi - 1) + {hi - 1}
  }

  /** `fake.random_element(elements=groups)` for the groups `base` up to
      `base + count - 1`. */
  function Pick(base: nat, count: nat, d: nat): (g: GroupId)
    requires count >= 1
    ensures base <= g < base + count
  {
    base + d % count
  }

  // ---------------------------------------------------------------------
  // create_example_groups

  /** How `create_example_groups` ends. */
  datatype ExampleGroupsOutcome = GroupsExist | CountTooSmall | GroupsCreated(count: nat)

  /** A user after `create_example_groups` made the groups `0` up to
      `count - 1`: a superuser joins them all and makes the first one
      active; any other user joins the group drawn for it and makes it
      active. */
  function ExampleMember(u: UserRow, count: nat, d: nat): (r: UserRow)
    requires count >= 1
  {
    if u.isSuperuser then u.(groups := u.groups + Range(0, count), activeGroup := Some(0))
    else u.(groups := u.groups + {Pick(0, count, d)}, activeGroup := Some(Pick(0, count, d)))
  }

  /** Every user after `create_example_groups`; `draw(i)` is the draw for
      user `i`. */
  function ExampleMembers(users: seq<UserRow>, count: nat, draw: nat -> nat): (r: seq<UserRow>)
    requires count >= 1
    ensures |r| == |users|
    ensures forall i :: 0 <= i < |users| ==> r[i] == ExampleMember(users[i], count, draw(i))
  {
    seq(|users|, i requires 0 <= i < |users| => ExampleMember(users[i], count, draw(i)))
  }

  /** Superusers end up in every new group with the first one active;
      every other user in exactly one more group, which is its active
      group; nobody loses a membership or changes anything else; and rows
      that were consistent with no groups are consistent with the new
      ones. */
  lemma ExampleMembersShape(users: seq<UserRow>, count: nat, draw: nat -> nat, i: nat)
    requires count >= 1 && i < |users|
    ensures var r := ExampleMembers(users, count, draw)[i];
      && users[i].groups <= r.groups
      && r.username == users[i].username && r.isSuperuser == users[i].isSuperuser
      && (users[i].isSuperuser ==> Range(0, count) <= r.groups && r.activeGroup == Some(0))
      && (!users[i].isSuperuser ==> r.activeGroup.Some? && r.activeGroup.value < count
                                    && r.groups == users[i].groups + {r.activeGroup.value})
      && ActiveIsMember(r)
      && (Consistent(users[i], 0) ==> Consistent(r, count))
  {
  }

  /** `create_example_groups --count count`. */
  method CreateExampleGroups(db: Db, count: int, draw: nat -> nat) returns (outcome: ExampleGroupsOutcome)
    modifies db
    ensures |old(db.groups)| > 0 ==> outcome == GroupsExist && unchanged(db)
    ensures |old(db.groups)| == 0 && count < 1 ==> outcome == CountTooSmall && unchanged(db)
    ensures |old(db.groups)| == 0 && count >= 1 ==>
      && outcome == GroupsCreated(count)
      && db.groups == SeedGroupNames(count)
      && db.users == ExampleMembers(old(db.users), count, draw)
      && db.tokens == old(db.tokens)
    ensures old(db.Valid()) ==> db.Valid()
  {
    if |db.groups| > 0 {
      return GroupsExist;
    }
    if count < 1 {
      return CountTooSmall;
    }
    var _ := CreateGroupRows(db, SeedGroupNames(count));
    ghost var u0 := db.users;
    // The superusers first.
    var j := 0;
    while j < |db.users|
      invariant 0 <= j <= |u0| == |db.users|
      invariant forall k :: 0 <= k < |u0| ==>
        db.users[k] == if k < j && u0[k].isSuperuser then ExampleMember(u0[k], count, draw(k)) else u0[k]
      invariant db.groups == SeedGroupNames(count) && db.tokens == old(db.tokens)
    {
      if db.users[j].isSuperuser {
        JoinGroups(db, j, 0, count);
        var changed := db.ChangeUserActiveGroup(j, 0);
        assert changed.Ok?;
      }
      j := j + 1;
    }
    // Then every other user.
    j := 0;
    while j < |db.users|
      invariant 0 <= j <= |u0| == |db.users|
      invariant forall k :: 0 <= k < |u0| ==>
        db.users[k] == if k < j || u0[k].isSuperuser then ExampleMember(u0[k], count, draw(k)) else u0[k]
      invariant db.groups == SeedGroupNames(count) && db.tokens == old(db.tokens)
    {
      if !db.users[j].isSuperuser {
        var group := Pick(0, count, draw(j));
        db.AddUserToGroup(j, group);
        var changed := db.ChangeUserActiveGroup(j, group);
        assert changed.Ok?;
      }
      j := j + 1;
    }
    forall i | 0 <= i < |db.users| && old(db.Valid())
      ensures Consistent(db.users[i], |db.groups|)
    {
      ExampleMembersShape(u0, count, draw, i);
    }
    return GroupsCreated(count);
  }

  /** `for group in groups: user.groups.add(group)` for the groups `base`
      up to `base + count - 1`. */
  method JoinGroups(db: Db, id: UserId, base: nat, count: nat)
    requires id < |db.users|
    modifies db
    ensures db.users == old(db.users)[id := old(db.users)[id].(groups := old(db.users)[id].groups + Range(base, base + count))]
    ensures db.groups == old(db.groups) && db.tokens == old(db.tokens)
  {
    ghost var row := old(db.users)[id];
    assert row.(groups := row.groups + Range(base, base)) == row;
    var t := 0;
    while t < count
      invariant 0 <= t <= count
      invariant db.users == old(db.users)[id := row.(groups := row.groups + Range(base, base + t))]
      invariant db.groups == old(db.groups) && db.tokens == old(db.tokens)
    {
      db.AddUserToGroup(id, base + t);
      assert row.groups + Range(base, base + t) + {base + t} == row.groups + Range(base, base + t + 1);
      t := t + 1;
    }
  }

  /** The loop `for ...: groups.append(GroupFactory.create(...))`: one
      new group per name, in order. */
  method CreateGroupRows(db: Db, names: seq<GroupName>) returns (ids: seq<GroupId>)
    modifies db
    ensures db.groups == old(db.groups) + names
    ensures ids == IdRange(|old(db.groups)|, |names|)
    ensures db.users == old(db.users) && db.tokens == old(db.tokens)
  {
    ids := [];
    var i := 0;
    while i < |names|
      invariant 0 <= i <= |names|
      invariant db.groups == old(db.groups) + names[..i]
      invariant ids == IdRange(|old(db.groups)|, i)
      invariant db.users == old(db.users) && db.tokens == old(db.tokens)
    {
      IdRangeStep(|old(db.groups)|, i);
      var id := db.CreateGroup(names[i]);
      assert names[..i + 1] == names[..i] + [names[i]];
      ids := ids + [id];
      i := i + 1;
    }
    assert names[..|names|] == names;
  }

  /** The ids `base` up to `base + n - 1`, in order. */
  function IdRange(base: nat, n: nat): (r: seq<nat>)
    ensures |r| == n
    ensures forall k :: 0 <= k < n ==> r[k] == base + k
  {
    seq(n, k requires 0 <= k < n => base + k)
  }

  /** One more id. */
  lemma IdRangeStep(base: nat, n: nat)
    ensures IdRange(base, n + 1) == IdRange(base, n) + [base + n]
  {
  }

  // ---------------------------------------------------------------------
  // populate_users_and_groups and populate_db

  /** How many times `range(n)` runs. */
  function Count(n: int): nat {
    if n < 0 then 0 else n
  }

  /** `environ.get(key, default)` */
  function EnvGet(env: map<string, string>, key: string, default: string): (r: string)
    ensures key in env ==> r == env[key]
    ensures key !in env ==> r == default
  {
    if key in env then env[key] else default
  }

  predicate HasAdminCredentials(env: map<string, string>) {
    "ADMIN_USERNAME" in env && "ADMIN_PASSWORD" in env
  }

  /** The user `AdminUserFactory.create` makes from the environment, with
      the defaults of the example project. */
  function AdminRow(env: map<string, string>): UserRow {
    UserRow(EnvGet(env, "ADMIN_USERNAME", "admin"), EnvGet(env, "ADMIN_EMAIL", "wilhelm.roentgen@example.org"),
            true, {}, None)
  }

  /** A user the user factory makes, named `name`. */
  function FakeUser(name: string): UserRow {
    UserRow(name, "", false, {}, None)
  }

  /** The tokens `create_admin` adds for the admin `owner`: one when
      ADMIN_AUTH_TOKEN is set, else none. */
  function AdminTokens(env: map<string, string>, hash: string -> string, fractionLength: nat, owner: UserId): (r: seq<Token>)
    ensures |r| <= 1
    ensures r != [] <==> "ADMIN_AUTH_TOKEN" in env
    ensures r != [] ==> r[0] == AuthToken(env["ADMIN_AUTH_TOKEN"], hash, fractionLength, owner)
  {
    if "ADMIN_AUTH_TOKEN" in env then [AuthToken(env["ADMIN_AUTH_TOKEN"], hash, fractionLength, owner)] else []
  }

  /** `create_admin` of the example project: always an admin, from the
      environment or the defaults, and its token when one is given. */
  method CreateDefaultAdmin(db: Db, env: map<string, string>, hash: string -> string, fractionLength: nat)
    returns (admin: UserId)
    modifies db
    ensures admin == |old(db.users)| && db.users == old(db.users) + [AdminRow(env)]
    ensures db.tokens == old(db.tokens) + AdminTokens(env, hash, fractionLength, admin)
    ensures db.groups == old(db.groups)
  {
    admin := db.CreateUser(AdminRow(env));
    if "ADMIN_AUTH_TOKEN" in env {
      db.CreateToken(AuthToken(env["ADMIN_AUTH_TOKEN"], hash, fractionLength, admin));
    }
  }

  /** `create_admin` of adit_radis_shared: nothing without ADMIN_USERNAME
      and ADMIN_PASSWORD. */
  method CreateAdmin(db: Db, env: map<string, string>, hash: string -> string, fractionLength: nat)
    returns (admin: Option<UserId>)
    modifies db
    ensures !HasAdminCredentials(env) ==> admin == None && unchanged(db)
    ensures HasAdminCredentials(env) ==>
      && admin == Some(|old(db.users)|)
      && db.users == old(db.users) + [AdminRow(env)]
      && db.tokens == old(db.tokens) + AdminTokens(env, hash, fractionLength, |old(db.users)|)
    ensures db.groups == old(db.groups)
  {
    if !HasAdminCredentials(env) {
      return None;
    }
    var id := CreateDefaultAdmin(db, env, hash, fractionLength);
    return Some(id);
  }

  /** The users `create_users(n)` adds: the admin first when there is one
      and `n >= 1`, then `n - 1` made-up users. */
  function SeededUsers(n: int, admin: Option<UserRow>, fakeName: nat -> string): (r: seq<UserRow>)
    ensures |r| == if n <= 0 then 0 else if admin.Some? then n else n - 1
    ensures n >= 1 && admin.Some? ==> r[0] == admin.value
    ensures forall i :: 0 <= i < |r| && (admin.None? || i > 0) ==> r[i] == FakeUser(fakeName(if admin.Some? then i else i + 1))
  {
    if n <= 0 then []
    else (if admin.Some? then [admin.value] else []) + FakeUsers(n - 1, fakeName)
  }

  /** The made-up users `1` up to `m`. */
  function FakeUsers(m: nat, fakeName: nat -> string): (r: seq<UserRow>)
    ensures |r| == m
    ensures forall k :: 0 <= k < m ==> r[k] == FakeUser(fakeName(k + 1))
  {
    seq(m, k requires 0 <= k < m => FakeUser(fakeName(k + 1)))
  }

  /** Seeded users start with no group and no active group; only the admin
      is a superuser. */
  lemma SeededUsersFresh(n: int, admin: Option<UserRow>, fakeName: nat -> string, i: nat)
    requires admin.Some? ==> admin.value.groups == {} && admin.value.activeGroup == None
    requires i < |SeededUsers(n, admin, fakeName)|
    ensures var u := SeededUsers(n, admin, fakeName)[i];
      && u.groups == {} && u.activeGroup == None
      && (u.isSuperuser <==> admin.Some? && i == 0 && admin.value.isSuperuser)
  {
  }

  /** One more turn of `create_users`' loop. */
  lemma SeededUsersStep(n: nat, admin: Option<UserRow>, fakeName: nat -> string)
    ensures SeededUsers(n + 1, admin, fakeName)
            == SeededUsers(n, admin, fakeName) + (if n == 0 then (if admin.Some? then [admin.value] else []) else [FakeUser(fakeName(n))])
  {
    if n > 0 {
      assert FakeUsers(n, fakeName) == FakeUsers(n - 1, fakeName) + [FakeUser(fakeName(n))];
    }
  }

  /** `create_users(n)` of adit_radis_shared: the admin is kept only when
      it was created. */
  method CreateUsers(db: Db, n: int, env: map<string, string>, hash: string -> string, fractionLength: nat,
                     fakeName: nat -> string) returns (ids: seq<UserId>)
    modifies db
    ensures var created := SeededUsers(n, if HasAdminCredentials(env) then Some(AdminRow(env)) else None, fakeName);
      && db.users == old(db.users) + created
      && ids == IdRange(|old(db.users)|, |created|)
    ensures db.tokens == old(db.tokens) + (if n >= 1 && HasAdminCredentials(env) then AdminTokens(env, hash, fractionLength, |old(db.users)|) else [])
    ensures db.groups == old(db.groups)
  {
    ghost var admin := if HasAdminCredentials(env) then Some(AdminRow(env)) else None;
    ids := [];
    var i := 0;
    while i < Count(n)
      invariant 0 <= i <= Count(n)
      invariant db.users == old(db.users) + SeededUsers(i, admin, fakeName)
      invariant ids == IdRange(|old(db.users)|, |SeededUsers(i, admin, fakeName)|)
      invariant db.tokens == old(db.tokens) + (if i >= 1 && HasAdminCredentials(env) then AdminTokens(env, hash, fractionLength, |old(db.users)|) else [])
      invariant db.groups == old(db.groups)
    {
      SeededUsersStep(i, admin, fakeName);
      IdRangeStep(|old(db.users)|, |SeededUsers(i, admin, fakeName)|);
      var user: Option<UserId>;
      if i == 0 {
        user := CreateAdmin(db, env, hash, fractionLength);
      } else {
        var id := db.CreateUser(FakeUser(fakeName(i)));
        user := Some(id);
      }
      if user.Some? {
        ids := ids + [user.value];
      }
      i := i + 1;
    }
  }

  /** `create_users(n)` of the example project: the admin is always the
      first of them. */
  method ExampleCreateUsers(db: Db, n: int, env: map<string, string>, hash: string -> string, fractionLength: nat,
                            fakeName: nat -> string) returns (ids: seq<UserId>)
    modifies db
    ensures db.users == old(db.users) + SeededUsers(n, Some(AdminRow(env)), fakeName)
    ensures ids == IdRange(|old(db.users)|, Count(n))
    ensures db.tokens == old(db.tokens) + (if n >= 1 then AdminTokens(env, hash, fractionLength, |old(db.users)|) else [])
    ensures db.groups == old(db.groups)
  {
    ids := [];
    var i := 0;
    while i < Count(n)
      invariant 0 <= i <= Count(n)
      invariant db.users == old(db.users) + SeededUsers(i, Some(AdminRow(env)), fakeName)
      invariant ids == IdRange(|old(db.users)|, i)
      invariant db.tokens == old(db.tokens) + (if i >= 1 then AdminTokens(env, hash, fractionLength, |old(db.users)|) else [])
      invariant db.groups == old(db.groups)
    {
      SeededUsersStep(i, Some(AdminRow(env)), fakeName);
      IdRangeStep(|old(db.users)|, i);
      var user: UserId;
      if i == 0 {
        user := CreateDefaultAdmin(db, env, hash, fractionLength);
      } else {
        user := db.CreateUser(FakeUser(fakeName(i)));
      }
      ids := ids + [user];
      i := i + 1;
    }
  }

  /** Users in populate_db. */
  const UserCount: nat := 20
  /** Groups in populate_db. */
  const GroupCount: nat := 3

  /** `1 + n` ids from `base` on. */
  lemma IdRangeCons(base: nat, n: nat)
    ensures IdRange(base, n + 1) == [base] + IdRange(base + 1, n)
  {
  }

  /** The loop of populate_db's `create_users()`: made-up users `1` up to
      `m`, one at a time. */
  method AddFakeUsers(db: Db, m: nat, fakeName: nat -> string) returns (ids: seq<UserId>)
    modifies db
    ensures db.users == old(db.users) + FakeUsers(m, fakeName)
    ensures ids == IdRange(|old(db.users)|, m)
    ensures db.tokens == old(db.tokens) && db.groups == old(db.groups)
  {
    ids := [];
    for i := 0 to m
      invariant db.users == old(db.users) + FakeUsers(i, fakeName)
      invariant ids == IdRange(|old(db.users)|, i)
      invariant db.tokens == old(db.tokens) && db.groups == old(db.groups)
    {
      assert FakeUsers(i + 1, fakeName) == FakeUsers(i, fakeName) + [FakeUser(fakeName(i + 1))];
      IdRangeStep(|old(db.users)|, i);
      var user := db.CreateUser(FakeUser(fakeName(i + 1)));
      ids := ids + [user];
    }
  }

  /** `create_users()` of populate_db: the admin, then USER_COUNT - 1
      made-up users. */
  method FixedCreateUsers(db: Db, env: map<string, string>, hash: string -> string, fractionLength: nat,
                          fakeName: nat -> string) returns (ids: seq<UserId>)
    modifies db
    ensures db.users == old(db.users) + SeededUsers(UserCount, Some(AdminRow(env)), fakeName)
    ensures ids == IdRange(|old(db.users)|, UserCount)
    ensures db.tokens == old(db.tokens) + AdminTokens(env, hash, fractionLength, |old(db.users)|)
    ensures db.groups == old(db.groups)
  {
    var admin := CreateDefaultAdmin(db, env, hash, fractionLength);
    var fakes := AddFakeUsers(db, UserCount - 1, fakeName);
    ids := [admin] + fakes;
    IdRangeCons(admin, UserCount - 1);
    assert SeededUsers(UserCount, Some(AdminRow(env)), fakeName) == [AdminRow(env)] + FakeUsers(UserCount - 1, fakeName);
  }

  /** Why seeding the groups stops half way: `users[0]` of an empty list,
      or `random_element` of an empty list. */
  datatype SeedError = NoUsers | NoGroupToDraw

  /** `user.groups.add(group)`, then `change_active_group(group)` when the
      user has no active group. */
  function JoinGroup(u: UserRow, g: GroupId): (r: UserRow)
    ensures r.groups == u.groups + {g}
    ensures r.activeGroup == if u.activeGroup.None? then Some(g) else u.activeGroup
    ensures r.username == u.username && r.isSuperuser == u.isSuperuser
  {
    var joined := AddGroup(u, g);
    if joined.activeGroup.None? then ChangeActiveGroup(joined, g).value else joined
  }

  /** The database step of `JoinGroup`. */
  method Join(db: Db, id: UserId, g: GroupId)
    requires id < |db.users|
    modifies db
    ensures db.users == old(db.users)[id := JoinGroup(old(db.users)[id], g)]
    ensures db.groups == old(db.groups) && db.tokens == old(db.tokens)
  {
    db.AddUserToGroup(id, g);
    if db.users[id].activeGroup.None? {
      var changed := db.ChangeUserActiveGroup(id, g);
      assert changed.Ok?;
    }
  }

  /** The admin after it joined the first `count` of the groups from
      `base` on, one at a time. */
  function AdminJoined(u: UserRow, base: nat, count: nat): UserRow {
    u.(groups := u.groups + Range(base, base + count),
       activeGroup := if u.activeGroup.None? && count > 0 then Some(base) else u.activeGroup)
  }

  lemma AdminJoinedStep(u: UserRow, base: nat, t: nat)
    ensures AdminJoined(u, base, t + 1) == JoinGroup(AdminJoined(u, base, t), base + t)
  {
    assert u.groups + Range(base, base + t) + {base + t} == u.groups + Range(base, base + t + 1);
  }

  /** The rows after the users at positions `lo` up to `m - 1` of `users`
      each joined the group drawn for them. */
  function JoinedRandomly(rows: seq<UserRow>, users: seq<UserId>, lo: nat, m: nat, base: nat, count: nat,
                          draw: nat -> nat): (r: seq<UserRow>)
    requires lo <= m <= |users|
    requires forall i :: 0 <= i < |users| ==> users[i] < |rows|
    requires m > lo ==> count >= 1
    ensures |r| == |rows|
    decreases m
  {
    if m == lo then rows
    else
      var prev := JoinedRandomly(rows, users, lo, m - 1, base, count, draw);
      prev[users[m - 1] := JoinGroup(prev[users[m - 1]], Pick(base, count, draw(m - 1)))]
  }

  /** One more user of the loop. */
  lemma JoinedRandomlyStep(rows: seq<UserRow>, users: seq<UserId>, lo: nat, m: nat, base: nat, count: nat,
                           draw: nat -> nat)
    requires lo <= m < |users| && count >= 1
    requires forall i :: 0 <= i < |users| ==> users[i] < |rows|
    ensures var prev := JoinedRandomly(rows, users, lo, m, base, count, draw);
      JoinedRandomly(rows, users, lo, m + 1, base, count, draw)
        == prev[users[m] := JoinGroup(prev[users[m]], Pick(base, count, draw(m)))]
  {
  }

  /** The loop `for user in users[lo:]` of `create_groups`: each user joins
      a random group among the `count` from `base` on. */
  method JoinRandomGroups(db: Db, users: seq<UserId>, lo: nat, base: nat, count: nat, draw: nat -> nat)
    returns (r: Result<(), SeedError>)
    requires lo <= |users|
    requires forall i :: 0 <= i < |users| ==> users[i] < |db.users|
    modifies db
    ensures r.Err? <==> count == 0 && lo < |users|
    ensures r.Err? ==> r.error == NoGroupToDraw && db.users == old(db.users)
    ensures r.Ok? ==> db.users == JoinedRandomly(old(db.users), users, lo, |users|, base, count, draw)
    ensures db.groups == old(db.groups) && db.tokens == old(db.tokens)
  {
    var j := lo;
    while j < |users|
      invariant lo <= j <= |users|
      invariant count >= 1 || j == lo
      invariant |db.users| == |old(db.users)|
      invariant db.users == JoinedRandomly(old(db.users), users, lo, j, base, count, draw)
      invariant db.groups == old(db.groups) && db.tokens == old(db.tokens)
    {
      if count == 0 {
        return Err(NoGroupToDraw);
      }
      JoinedRandomlyStep(old(db.users), users, lo, j, base, count, draw);
      Join(db, users[j], Pick(base, count, draw(j)));
      j := j + 1;
    }
    return Ok(());
  }

  /** The rows after `create_groups` of adit_radis_shared: `users[0]` joins
      every new group, then every other user a random one. */
  function SharedGrouped(rows: seq<UserRow>, users: seq<UserId>, base: nat, count: nat, draw: nat -> nat): seq<UserRow>
    requires users != [] && (count >= 1 || |users| == 1)
    requires forall i :: 0 <= i < |users| ==> users[i] < |rows|
  {
    var first := users[0];
    JoinedRandomly(rows[first := AdminJoined(rows[first], base, count)], users, 1, |users|, base, count, draw)
  }

  /** The loop `for group in groups: admin.groups.add(group)` with the
      active group set on the first: the admin joins the `count` groups
      from `base` on. */
  method AdminJoinsAll(db: Db, admin: UserId, base: nat, count: nat)
    requires admin < |db.users|
    modifies db
    ensures db.users == old(db.users)[admin := AdminJoined(old(db.users)[admin], base, count)]
    ensures count == 0 ==> db.users == old(db.users)
    ensures db.groups == old(db.groups) && db.tokens == old(db.tokens)
  {
    ghost var rows0 := db.users;
    assert AdminJoined(rows0[admin], base, 0) == rows0[admin];
    assert rows0[admin := rows0[admin]] == rows0;
    for t := 0 to count
      invariant db.users == rows0[admin := AdminJoined(rows0[admin], base, t)]
      invariant db.groups == old(db.groups) && db.tokens == old(db.tokens)
    {
      AdminJoinedStep(rows0[admin], base, t);
      Join(db, admin, base + t);
    }
  }

  /** `create_groups(users, count)` of adit_radis_shared. The groups are
      made before `users[0]` is read, so they stay when the list is
      empty. */
  method CreateGroups(db: Db, users: seq<UserId>, count: int, draw: nat -> nat) returns (r: Result<seq<GroupId>, SeedError>)
    requires forall i :: 0 <= i < |users| ==> users[i] < |db.users|
    modifies db
    ensures db.groups == old(db.groups) + SeedGroupNames(Count(count)) && db.tokens == old(db.tokens)
    ensures users == [] ==> r == Err(NoUsers) && db.users == old(db.users)
    ensures users != [] && Count(count) == 0 && |users| > 1 ==> r == Err(NoGroupToDraw) && db.users == old(db.users)
    ensures users != [] && (Count(count) >= 1 || |users| == 1) ==>
      && r == Ok(IdRange(|old(db.groups)|, Count(count)))
      && db.users == SharedGrouped(old(db.users), users, |old(db.groups)|, Count(count), draw)
  {
    var base := |db.groups|;
    var k := Count(count);
    var groups := CreateGroupRows(db, SeedGroupNames(k));
    if users == [] {
      return Err(NoUsers);
    }
    AdminJoinsAll(db, users[0], base, k);
    var joined := JoinRandomGroups(db, users, 1, base, k, draw);
    if joined.Err? {
      return Err(joined.error);
    }
    return Ok(groups);
  }

  /** `create_groups(users, count)` of the example project: made-up group
      names, and every user, the admin too, joins a random group. */
  method ExampleCreateGroups(db: Db, users: seq<UserId>, count: int, draw: nat -> nat) returns (r: Result<seq<GroupId>, SeedError>)
    requires forall i :: 0 <= i < |users| ==> users[i] < |db.users|
    modifies db
    ensures db.groups == old(db.groups) + GeneratedNames(Count(count)) && db.tokens == old(db.tokens)
    ensures r.Err? <==> Count(count) == 0 && users != []
    ensures r.Err? ==> r.error == NoGroupToDraw && db.users == old(db.users)
    ensures r.Ok? ==> r.value == IdRange(|old(db.groups)|, Count(count))
                      && db.users == JoinedRandomly(old(db.users), users, 0, |users|, |old(db.groups)|, Count(count), draw)
  {
    var base := |db.groups|;
    var groups := CreateGroupRows(db, GeneratedNames(Count(count)));
    var joined := JoinRandomGroups(db, users, 0, base, Count(count), draw);
    if joined.Err? {
      return Err(joined.error);
    }
    return Ok(groups);
  }

  /** `n` names for the group factory to make up. */
  function GeneratedNames(n: nat): (r: seq<GroupName>)
    ensures |r| == n && forall i :: 0 <= i < n ==> r[i] == Generated
  {
    seq(n, _ => Generated)
  }

  /** With fresh consecutive ids, each user from position `lo` on joined
      exactly the group drawn for it, and every other row is as it was. */
  lemma {:induction false} JoinedRandomlyAt(rows: seq<UserRow>, b: nat, n: nat, lo: nat, m: nat, base: nat, count: nat,
                                            draw: nat -> nat, i: nat)
    requires b + n <= |rows| && lo <= m <= n && (m > lo ==> count >= 1) && i < |rows|
    ensures JoinedRandomly(rows, IdRange(b, n), lo, m, base, count, draw)[i]
            == if b + lo <= i < b + m then JoinGroup(rows[i], Pick(base, count, draw(i - b))) else rows[i]
  {
    if m > lo {
      JoinedRandomlyAt(rows, b, n, lo, m - 1, base, count, draw, i);
    }
  }

  /** How the seeding commands end. */
  datatype PopulateOutcome = AlreadyPopulated | Populated(users: nat, groups: nat) | Failed(error: SeedError)

  /** The admin `create_admin` of adit_radis_shared creates, if any. */
  function SharedAdmin(env: map<string, string>): Option<UserRow> {
    if HasAdminCredentials(env) then Some(AdminRow(env)) else None
  }

  /** `populate_users_and_groups --users usersCount --groups groupsCount`
      of adit_radis_shared. */
  method PopulateUsersAndGroups(db: Db, usersCount: int, groupsCount: int, env: map<string, string>,
                                hash: string -> string, fractionLength: nat, fakeName: nat -> string, draw: nat -> nat)
    returns (outcome: PopulateOutcome)
    modifies db
    ensures |old(db.users)| > 0 ==> outcome == AlreadyPopulated && unchanged(db)
    ensures |old(db.users)| == 0 ==>
      var created := SeededUsers(usersCount, SharedAdmin(env), fakeName);
      var k := Count(groupsCount);
      && db.groups == old(db.groups) + SeedGroupNames(k)
      && db.tokens == old(db.tokens) + (if usersCount >= 1 && HasAdminCredentials(env) then AdminTokens(env, hash, fractionLength, 0) else [])
      && (created == [] ==> outcome == Failed(NoUsers) && db.users == [])
      && (created != [] && k == 0 && |created| > 1 ==> outcome == Failed(NoGroupToDraw) && db.users == created)
      && (created != [] && (k >= 1 || |created| == 1) ==>
            outcome == Populated(|created|, k)
            && db.users == SharedGrouped(created, IdRange(0, |created|), |old(db.groups)|, k, draw))
  {
    if |db.users| > 0 {
      return AlreadyPopulated;
    }
    var users := CreateUsers(db, usersCount, env, hash, fractionLength, fakeName);
    assert db.users == SeededUsers(usersCount, SharedAdmin(env), fakeName);
    var groups := CreateGroups(db, users, groupsCount, draw);
    if groups.Err? {
      return Failed(groups.error);
    }
    return Populated(|users|, |groups.value|);
  }

  /** After `populate_users_and_groups` of adit_radis_shared on an empty
      users table: the first user (the admin when it was created) is in
      every new group with the first one active, every other user is in
      the one group drawn for it, which is active, and every row is
      consistent with the groups table. */
  lemma SharedPopulatedShape(usersCount: int, env: map<string, string>, fakeName: nat -> string, base: nat, count: nat,
                             draw: nat -> nat, i: nat)
    requires var created := SeededUsers(usersCount, SharedAdmin(env), fakeName);
      created != [] && (count >= 1 || |created| == 1) && i < |created|
    ensures var created := SeededUsers(usersCount, SharedAdmin(env), fakeName);
      var u := SharedGrouped(created, IdRange(0, |created|), base, count, draw)[i];
      && (i == 0 ==> u.groups == Range(base, base + count) && u.activeGroup == (if count > 0 then Some(base) else None))
      && (i > 0 ==> u.groups == {Pick(base, count, draw(i))} && u.activeGroup == Some(Pick(base, count, draw(i))))
      && Consistent(u, base + count)
  {
    var created := SeededUsers(usersCount, SharedAdmin(env), fakeName);
    var n := |created|;
    SeededUsersFresh(usersCount, SharedAdmin(env), fakeName, i);
    SeededUsersFresh(usersCount, SharedAdmin(env), fakeName, 0);
    var rows1 := created[0 := AdminJoined(created[0], base, count)];
    assert IdRange(0, n)[0] == 0;
    var rows := SharedGrouped(created, IdRange(0, n), base, count, draw);
    assert rows == JoinedRandomly(rows1, IdRange(0, n), 1, n, base, count, draw);
    JoinedRandomlyAt(rows1, 0, n, 1, n, base, count, draw, i);
    if i == 0 {
      assert rows[0] == AdminJoined(created[0], base, count);
    } else {
      assert rows[i] == JoinGroup(created[i], Pick(base, count, draw(i)));
    }
  }

  /** `populate_users_and_groups --users usersCount --groups groupsCount`
      of the example project. */
  method ExamplePopulateUsersAndGroups(db: Db, usersCount: int, groupsCount: int, env: map<string, string>,
                                       hash: string -> string, fractionLength: nat, fakeName: nat -> string, draw: nat -> nat)
    returns (outcome: PopulateOutcome)
    modifies db
    ensures |old(db.users)| > 0 ==> outcome == AlreadyPopulated && unchanged(db)
    ensures |old(db.users)| == 0 ==> ExamplePopulated(db.users, db.groups, db.tokens, outcome, old(db.groups), old(db.tokens),
                                                      usersCount, groupsCount, env, hash, fractionLength, fakeName, draw)
  {
    if |db.users| > 0 {
      return AlreadyPopulated;
    }
    var users := ExampleCreateUsers(db, usersCount, env, hash, fractionLength, fakeName);
    assert db.users == SeededUsers(usersCount, Some(AdminRow(env)), fakeName);
    var groups := ExampleCreateGroups(db, users, groupsCount, draw);
    if groups.Err? {
      return Failed(groups.error);
    }
    return Populated(|users|, |groups.value|);
  }

  /** The tables and outcome of the example project's seeding of an empty
      users table with `usersCount` users and `groupsCount` groups. */
  ghost predicate ExamplePopulated(users: seq<UserRow>, groups: seq<GroupName>, tokens: seq<Token>, outcome: PopulateOutcome,
                                   groups0: seq<GroupName>, tokens0: seq<Token>, usersCount: int, groupsCount: int,
                                   env: map<string, string>, hash: string -> string, fractionLength: nat,
                                   fakeName: nat -> string, draw: nat -> nat)
  {
    var created := SeededUsers(usersCount, Some(AdminRow(env)), fakeName);
    var k := Count(groupsCount);
    && groups == groups0 + GeneratedNames(k)
    && tokens == tokens0 + (if usersCount >= 1 then AdminTokens(env, hash, fractionLength, 0) else [])
    && (k == 0 && created != [] ==> outcome == Failed(NoGroupToDraw) && users == created)
    && (k >= 1 || created == [] ==>
          outcome == Populated(|created|, k)
          && users == JoinedRandomly(created, IdRange(0, |created|), 0, |created|, |groups0|, k, draw))
  }

  /** After the example project's seeding: exactly `usersCount` users with
      the admin first, and each user in the one group drawn for it, which
      is active. */
  lemma ExamplePopulatedShape(usersCount: int, env: map<string, string>, fakeName: nat -> string, base: nat, count: nat,
                              draw: nat -> nat, i: nat)
    requires count >= 1
    requires i < |SeededUsers(usersCount, Some(AdminRow(env)), fakeName)|
    ensures var created := SeededUsers(usersCount, Some(AdminRow(env)), fakeName);
      var u := JoinedRandomly(created, IdRange(0, |created|), 0, |created|, base, count, draw)[i];
      && |created| == Count(usersCount)
      && created[0] == AdminRow(env)
      && u.groups == {Pick(base, count, draw(i))} && u.activeGroup == Some(Pick(base, count, draw(i)))
      && Consistent(u, base + count)
  {
    var created := SeededUsers(usersCount, Some(AdminRow(env)), fakeName);
    SeededUsersFresh(usersCount, Some(AdminRow(env)), fakeName, i);
    JoinedRandomlyAt(created, 0, |created|, 0, |created|, base, count, draw, i);
  }

  /** `populate_db [--reset]`: USER_COUNT users and GROUP_COUNT groups, on
      a database emptied first when `reset` is given. */
  method PopulateDb(db: Db, reset: bool, env: map<string, string>, hash: string -> string, fractionLength: nat,
                    fakeName: nat -> string, draw: nat -> nat) returns (outcome: PopulateOutcome)
    modifies db
    ensures !reset && |old(db.users)| > 0 ==> outcome == AlreadyPopulated && unchanged(db)
    ensures reset || |old(db.users)| == 0 ==>
      var created := SeededUsers(UserCount, Some(AdminRow(env)), fakeName);
      var groups0 := if reset then [] else old(db.groups);
      && outcome == Populated(UserCount, GroupCount)
      && db.groups == groups0 + GeneratedNames(GroupCount)
      && db.tokens == (if reset then [] else old(db.tokens)) + AdminTokens(env, hash, fractionLength, 0)
      && db.users == JoinedRandomly(created, IdRange(0, UserCount), 0, UserCount, |groups0|, GroupCount, draw)
  {
    if reset {
      db.Reset();
    }
    if |db.users| > 0 {
      return AlreadyPopulated;
    }
    var users := FixedCreateUsers(db, env, hash, fractionLength, fakeName);
    assert db.users == SeededUsers(UserCount, Some(AdminRow(env)), fakeName);
    var groups := ExampleCreateGroups(db, users, GroupCount, draw);
    return Populated(|users|, |groups.value|);
  }
}
