/** The user / group state of adit_radis_shared/accounts/models.py: each
    user belongs to a set of groups and may name one of them its active
    group. `save` refuses an active group the user is not a member of, and
    deleting a group nulls the active group that points at it (`SET_NULL`).
    The database is a class whose rows the management commands change in
    place; a user's and a group's id is its position in the table. */
module Accounts {
  import opened Wrappers

  type UserId = nat
  type GroupId = nat

  /** A group's name: one given by the caller, or one the group factory
      makes up. */
  datatype GroupName = Named(name: string) | Generated

  /** A user row: the fields the model reads, its group memberships (the
      `groups` relation, written as soon as it is added to) and its stored
      `active_group`. */
  datatype UserRow = UserRow(
    username: string,
    email: string,
    isSuperuser: bool,
    groups: set<GroupId>,
    activeGroup: Option<GroupId>)

  /** An API token row of token_authentication: the hash, the clear-text
      prefix kept to find it, its owner and its expiry (`None` = never). */
  datatype Token = Token(hashed: string, fraction: string, owner: UserId, expires: Option<nat>)

  /** `s[:n]`, which stops at the end of a shorter string. */
  function Prefix(s: string, n: nat): (r: string)
    ensures r <= s
    ensures |r| == if n <= |s| then n else |s|
  {
    if n <= |s| then s[..n] else s
  }

  /** The token row for the secret `secret`: its hash, the first
      FRACTION_LENGTH characters in clear, and no expiry. */
  function AuthToken(secret: string, hash: string -> string, fractionLength: nat, owner: UserId): (t: Token)
    ensures t.hashed == hash(secret) && t.owner == owner && t.expires == None
    ensures t.fraction <= secret && |t.fraction| == if fractionLength <= |secret| then fractionLength else |secret|
  {
    Token(hash(secret), Prefix(secret, fractionLength), owner, None)
  }

  /** The two `ValueError`s of the model. */
  datatype AccountError = ActiveGroupNotMember | NewGroupNotMember

  /** The invariant `save` keeps: no active group, or one of the user's
      groups. */
  predicate ActiveIsMember(u: UserRow) {
    u.activeGroup.None? || u.activeGroup.value in u.groups
  }

  /** `User.save` with `active` as the instance's `active_group`: the row
      is written only when that group is null or one of the user's groups. */
  function Save(u: UserRow, active: Option<GroupId>): (r: Result<UserRow, AccountError>)
    ensures r.Err? <==> active.Some? && active.value !in u.groups
    ensures r.Err? ==> r.error == ActiveGroupNotMember
    ensures r.Ok? ==> ActiveIsMember(r.value) && r.value.activeGroup == active
    ensures r.Ok? ==> r.value.groups == u.groups && r.value.username == u.username
  {
    if active.Some? && active.value !in u.groups then Err(ActiveGroupNotMember)
    else Ok(u.(activeGroup := active))
  }

  /** `User.change_active_group`. */
  function ChangeActiveGroup(u: UserRow, g: GroupId): (r: Result<UserRow, AccountError>)
    ensures r.Err? <==> g !in u.groups
    ensures r.Err? ==> r.error == NewGroupNotMember
    ensures r.Ok? ==> r.value == u.(activeGroup := Some(g)) && ActiveIsMember(r.value)
  {
    if g in u.groups then Save(u, Some(g)) else Err(NewGroupNotMember)
  }

  /** `user.groups.add(g)`. */
  function AddGroup(u: UserRow, g: GroupId): (r: UserRow)
    ensures r.groups == u.groups + {g}
    ensures r.activeGroup == u.activeGroup
    ensures ActiveIsMember(u) ==> ActiveIsMember(r)
  {
    u.(groups := u.groups + {g})
  }

  /** What deleting group `g` does to a user: the membership goes, and an
      active group that was `g` becomes null. */
  function DeleteGroup(u: UserRow, g: GroupId): (r: UserRow)
    ensures r.groups == u.groups - {g}
    ensures r.activeGroup != Some(g)
    ensures u.activeGroup != Some(g) ==> r.activeGroup == u.activeGroup
    ensures ActiveIsMember(u) ==> ActiveIsMember(r)
  {
    u.(groups := u.groups - {g}, activeGroup := if u.activeGroup == Some(g) then None else u.activeGroup)
  }

  /** A null active group is always accepted, and any member group is. */
  lemma SaveAccepts(u: UserRow, g: GroupId)
    ensures Save(u, None) == Ok(u.(activeGroup := None))
    ensures g in u.groups ==> Save(u, Some(g)).Ok?
  {
  }

  /** A change of active group either succeeds or changes nothing, and it
      never touches the memberships; a second change to the same group
      changes nothing more. */
  lemma ChangeActiveGroupIdempotent(u: UserRow, g: GroupId)
    ensures var r := ChangeActiveGroup(u, g);
      r.Ok? ==> ChangeActiveGroup(r.value, g) == r
  {
  }

  /** Joining a group and then making it active always succeeds. */
  lemma JoinThenActivate(u: UserRow, g: GroupId)
    ensures ChangeActiveGroup(AddGroup(u, g), g) == Ok(u.(groups := u.groups + {g}, activeGroup := Some(g)))
  {
  }

  /** The rows as the database keeps them: every membership names an
      existing group, and every active group is one of the user's. */
  predicate Consistent(u: UserRow, groupCount: nat) {
    ActiveIsMember(u) && forall g :: g in u.groups ==> g < groupCount
  }

  /** The users, groups and tokens tables. */
  class Db {
    var users: seq<UserRow>
    var groups: seq<GroupName>
    var tokens: seq<Token>

    constructor (users: seq<UserRow>, groups: seq<GroupName>, tokens: seq<Token>)
      ensures this.users == users && this.groups == groups && this.tokens == tokens
    {
      this.users := users;
      this.groups := groups;
      this.tokens := tokens;
    }

    /** Every user row is consistent with the groups table. */
    predicate Valid()
      reads this
    {
      forall i :: 0 <= i < |users| ==> Consistent(users[i], |groups|)
    }

    /** `User.objects.create` (or a user factory): the new row's id. */
    method CreateUser(u: UserRow) returns (id: UserId)
      modifies this
      ensures id == |old(users)| && users == old(users) + [u]
      ensures groups == old(groups) && tokens == old(tokens)
    {
      id := |users|;
      users := users + [u];
    }

    /** `Group.objects.create` (or the group factory): the new group's id. */
    method CreateGroup(name: GroupName) returns (id: GroupId)
      modifies this
      ensures id == |old(groups)| && groups == old(groups) + [name]
      ensures users == old(users) && tokens == old(tokens)
    {
      id := |groups|;
      groups := groups + [name];
    }

    /** A new token row. */
    method CreateToken(t: Token)
      modifies this
      ensures tokens == old(tokens) + [t]
      ensures users == old(users) && groups == old(groups)
    {
      tokens := tokens + [t];
    }

    /** `reset_db` followed by `migrate`: every table starts out empty. */
    method Reset()
      modifies this
      ensures users == [] && groups == [] && tokens == []
    {
      users, groups, tokens := [], [], [];
    }

    /** `users[id].groups.add(g)`. */
    method AddUserToGroup(id: UserId, g: GroupId)
      requires id < |users|
      modifies this
      ensures users == old(users)[id := AddGroup(old(users)[id], g)]
      ensures groups == old(groups) && tokens == old(tokens)
    {
      users := users[id := AddGroup(users[id], g)];
    }

    /** `users[id].change_active_group(g)`: on success the row is saved with
        the new active group; on failure nothing changes. */
    method ChangeUserActiveGroup(id: UserId, g: GroupId) returns (r: Result<(), AccountError>)
      requires id < |users|
      modifies this
      ensures var expected := ChangeActiveGroup(old(users)[id], g);
        && (r.Ok? <==> expected.Ok?)
        && (r.Err? ==> r.error == expected.error && users == old(users))
        && (r.Ok? ==> users == old(users)[id := expected.value])
      ensures groups == old(groups) && tokens == old(tokens)
    {
      var changed := ChangeActiveGroup(users[id], g);
      if changed.Err? {
        return Err(changed.error);
      }
      users := users[id := changed.value];
      return Ok(());
    }
  }

  /** A successful change of active group to an existing group keeps the
      database consistent. */
  lemma ChangeKeepsConsistent(u: UserRow, g: GroupId, groupCount: nat)
    requires Consistent(u, groupCount)
    ensures var r := ChangeActiveGroup(u, g);
      r.Ok? ==> Consistent(r.value, groupCount)
  {
  }

  /** Deleting the last group keeps every row consistent with the shorter
      table: `SET_NULL` clears the active groups that pointed at it. */
  lemma DeleteLastGroupKeepsConsistent(u: UserRow, groupCount: nat)
    requires groupCount > 0 && Consistent(u, groupCount)
    ensures Consistent(DeleteGroup(u, groupCount - 1), groupCount - 1)
  {
  }
}
