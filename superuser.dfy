/** The `create_superuser` management command
    (adit_radis_shared/common/management/commands/create_superuser.py):
    a superuser, and its API token, from SUPERUSER_* environment variables,
    unless one of its guards stops it first. */
module SuperuserCommand {
  import opened Wrappers
  import opened Accounts
  import opened Text

  /** How the command ends. */
  datatype SuperuserOutcome =
    | SuperuserExists
    | MissingVariable(name: string)
    | UsernameTaken(username: string)
    | SuperuserCreated(id: UserId, withToken: bool)

  /** `os.environ.get(key)` when it is truthy: present and not empty. */
  function Truthy(env: map<string, string>, key: string): (r: Option<string>)
    ensures r.Some? <==> key in env && env[key] != ""
    ensures r.Some? ==> r.value == env[key]
  {
    if key in env && env[key] != "" then Some(env[key]) else None
  }

  predicate HasSuperuser(users: seq<UserRow>) {
    exists i :: 0 <= i < |users| && users[i].isSuperuser
  }

  predicate UsernameInUse(users: seq<UserRow>, username: string) {
    exists i :: 0 <= i < |users| && users[i].username == username
  }

  /** The guard that stops the command, if one does, in the order the
      command checks them. */
  function Guard(users: seq<UserRow>, env: map<string, string>, force: bool): (r: Option<SuperuserOutcome>)
    ensures r.None? <==>
      && (force || !HasSuperuser(users))
      && Truthy(env, "SUPERUSER_USERNAME").Some?
      && Truthy(env, "SUPERUSER_EMAIL").Some?
      && Truthy(env, "SUPERUSER_PASSWORD").Some?
      && !UsernameInUse(users, env["SUPERUSER_USERNAME"])
    ensures r.Some? ==> !r.value.SuperuserCreated?
    ensures HasSuperuser(users) && !force ==> r == Some(SuperuserExists)
  {
    if HasSuperuser(users) && !force then Some(SuperuserExists)
    else if Truthy(env, "SUPERUSER_USERNAME").None? then Some(MissingVariable("SUPERUSER_USERNAME"))
    else if Truthy(env, "SUPERUSER_EMAIL").None? then Some(MissingVariable("SUPERUSER_EMAIL"))
    else if Truthy(env, "SUPERUSER_PASSWORD").None? then Some(MissingVariable("SUPERUSER_PASSWORD"))
    else if UsernameInUse(users, env["SUPERUSER_USERNAME"]) then Some(UsernameTaken(env["SUPERUSER_USERNAME"]))
    else None
  }

  /** The variables are checked in the order username, email, password:
      the first one missing is the one reported. */
  lemma GuardOrder(users: seq<UserRow>, env: map<string, string>, force: bool)
    requires force || !HasSuperuser(users)
    ensures Truthy(env, "SUPERUSER_USERNAME").None? ==> Guard(users, env, force) == Some(MissingVariable("SUPERUSER_USERNAME"))
    ensures Truthy(env, "SUPERUSER_USERNAME").Some? && Truthy(env, "SUPERUSER_EMAIL").None?
            ==> Guard(users, env, force) == Some(MissingVariable("SUPERUSER_EMAIL"))
    ensures Truthy(env, "SUPERUSER_USERNAME").Some? && Truthy(env, "SUPERUSER_EMAIL").Some? && Truthy(env, "SUPERUSER_PASSWORD").None?
            ==> Guard(users, env, force) == Some(MissingVariable("SUPERUSER_PASSWORD"))
  {
  }

  /** Django's `BaseUserManager.normalize_email`, which `create_superuser`
      applies to the address it stores: an address holding an `@` is
      stripped and the part after its last `@` (the domain) lower-cased;
      any other address is stored as given. */
  function NormalizeEmail(email: string): (r: string)
    ensures '@' !in Strip(email) ==> r == email
    ensures '@' in Strip(email) ==>
      var s := Strip(email);
      var at := LastIndexOf(s, '@');
      && |r| == |s|
      && r[..at + 1] == s[..at + 1]
      && r[at + 1..] == Lower(s[at + 1..])
  {
    var s := Strip(email);
    var at := LastIndexOf(s, '@');
    if at == |s| then email else LowerDomain(s, at)
  }

  /** `s` with the part after the `@` at `at` lower-cased. */
  function LowerDomain(s: string, at: nat): (r: string)
    requires at < |s| && s[at] == '@'
    ensures |r| == |s|
    ensures r[..at + 1] == s[..at + 1]
    ensures r[at + 1..] == Lower(s[at + 1..])
  {
    SplitAt(s, at, Lower(s[at + 1..]));
    s[..at] + ['@'] + Lower(s[at + 1..])
  }

  lemma AroundAt(name: string, domain: string)
    ensures (name + ['@'] + domain)[..|name| + 1] == name + ['@']
    ensures (name + ['@'] + domain)[|name| + 1..] == domain
  {
  }

  /** Replacing what follows the `@` at `at` keeps everything up to it. */
  lemma SplitAt(s: string, at: nat, domain: string)
    requires at < |s| && s[at] == '@'
    ensures |s[..at] + ['@'] + domain| == at + 1 + |domain|
    ensures (s[..at] + ['@'] + domain)[..at + 1] == s[..at + 1]
    ensures (s[..at] + ['@'] + domain)[at + 1..] == domain
  {
    AroundAt(s[..at], domain);
    assert s[..at + 1] == s[..at] + ['@'];
  }

  lemma LowerIdempotent(s: string)
    ensures Lower(Lower(s)) == Lower(s)
  {
  }

  lemma LowerKeepsShape(s: string)
    ensures IsStripped(s) ==> IsStripped(Lower(s))
    ensures '@' !in s ==> '@' !in Lower(s)
  {
    var l := Lower(s);
    if '@' in l {
      var i :| 0 <= i < |l| && l[i] == '@';
      assert l[i] == LowerChar(s[i]);
    }
  }

  /** An address whose last `@` is at `at`, with its domain lower-cased,
      is still stripped and still has its last `@` there. */
  lemma LowerDomainShape(s: string, at: nat)
    requires at < |s| && s[at] == '@' && IsStripped(s)
    requires forall j :: at < j < |s| ==> s[j] != '@'
    ensures IsStripped(LowerDomain(s, at))
    ensures LastIndexOf(LowerDomain(s, at), '@') == at
  {
    var r := LowerDomain(s, at);
    var domain := s[at + 1..];
    assert '@' !in domain by {
      forall k | 0 <= k < |domain|
        ensures domain[k] != '@'
      {
        assert domain[k] == s[at + 1 + k];
      }
    }
    LowerKeepsShape(domain);
    assert r[at] == r[..at + 1][at] == s[at];
    LastAtBeforeDomain(r, at, Lower(domain));
    LowerDomainStripped(s, at);
  }

  lemma LowerDomainStripped(s: string, at: nat)
    requires at < |s| && s[at] == '@' && IsStripped(s)
    ensures IsStripped(LowerDomain(s, at))
  {
    var r := LowerDomain(s, at);
    var head := r[..at + 1];
    assert r[0] == head[0];
    var last := |s| - 1;
    if at < last {
      var domain := r[at + 1..];
      assert r[last] == domain[last - at - 1];
      assert domain[last - at - 1] == LowerChar(s[last]);
    }
  }

  lemma LastAtBeforeDomain(r: string, at: nat, domain: string)
    requires at < |r| && r[at] == '@'
    requires r[at + 1..] == domain && '@' !in domain
    ensures LastIndexOf(r, '@') == at
  {
    forall j | at < j < |r|
      ensures r[j] != '@'
    {
      assert r[j] == domain[j - at - 1];
    }
    LastIndexOfAt(r, '@', at);
  }

  /** A stripped address whose domain is already lower-case is left as it is. */
  lemma NormalizedIsFixed(r: string, at: nat, domain: string)
    requires IsStripped(r) && at == LastIndexOf(r, '@') && at < |r|
    requires r[at + 1..] == Lower(domain)
    ensures NormalizeEmail(r) == r
  {
    StripShape(r);
    assert NormalizeEmail(r) == LowerDomain(r, at);
    LowerDomainFixed(r, at, domain);
  }

  lemma LowerDomainFixed(r: string, at: nat, domain: string)
    requires at < |r| && r[at] == '@'
    requires r[at + 1..] == Lower(domain)
    ensures LowerDomain(r, at) == r
  {
    var r2 := LowerDomain(r, at);
    LowerIdempotent(domain);
    assert r2[at + 1..] == r[at + 1..];
    assert r2 == r2[..at + 1] + r2[at + 1..];
    assert r == r[..at + 1] + r[at + 1..];
  }

  /** Storing an address normalises it once and for all: normalising the
      stored address again gives it back. */
  lemma {:induction false} NormalizeEmailIdempotent(email: string)
    ensures NormalizeEmail(NormalizeEmail(email)) == NormalizeEmail(email)
  {
    var s := Strip(email);
    var at := LastIndexOf(s, '@');
    if at < |s| {
      var stored := LowerDomain(s, at);
      assert NormalizeEmail(email) == stored;
      StripShape(email);
      LowerDomainShape(s, at);
      NormalizedIsFixed(stored, at, s[at + 1..]);
    }
  }

  /** The superuser `create_superuser(username, email, password)` makes:
      the e-mail address is stored normalised. */
  function SuperuserRow(env: map<string, string>): UserRow
    requires "SUPERUSER_USERNAME" in env && "SUPERUSER_EMAIL" in env
  {
    UserRow(env["SUPERUSER_USERNAME"], NormalizeEmail(env["SUPERUSER_EMAIL"]), true, {}, None)
  }

  /** The command as a step on the users and tokens tables. */
  function SuperuserStep(users: seq<UserRow>, tokens: seq<Token>, env: map<string, string>, force: bool,
                         hash: string -> string, fractionLength: nat): (r: (SuperuserOutcome, seq<UserRow>, seq<Token>))
    ensures r.0.SuperuserCreated? <==> Guard(users, env, force).None?
    ensures !r.0.SuperuserCreated? ==> r.1 == users && r.2 == tokens
    ensures r.0.SuperuserCreated? ==>
      && |r.1| == |users| + 1 && r.1[..|users|] == users && r.0.id == |users|
      && r.1[|users|].isSuperuser && r.1[|users|].username == env["SUPERUSER_USERNAME"]
      && r.1[|users|].email == NormalizeEmail(env["SUPERUSER_EMAIL"])
      && r.1[|users|].groups == {} && r.1[|users|].activeGroup == None
      && (r.0.withToken <==> Truthy(env, "SUPERUSER_AUTH_TOKEN").Some?)
      && r.2 == tokens + (if r.0.withToken then [AuthToken(env["SUPERUSER_AUTH_TOKEN"], hash, fractionLength, |users|)] else [])
  {
    match Guard(users, env, force)
    case Some(stop) => (stop, users, tokens)
    case None =>
      var id := |users|;
      var users' := users + [SuperuserRow(env)];
      assert users'[..|users|] == users;
      match Truthy(env, "SUPERUSER_AUTH_TOKEN")
      case None => (SuperuserCreated(id, false), users', tokens)
      case Some(secret) => (SuperuserCreated(id, true), users', tokens + [AuthToken(secret, hash, fractionLength, id)])
  }

  /** Running the command twice creates one superuser: without `--force`
      the second run finds it, and with `--force` it finds the username
      taken. */
  lemma SecondRunCreatesNothing(users: seq<UserRow>, tokens: seq<Token>, env: map<string, string>, force: bool,
                                secondForce: bool, hash: string -> string, fractionLength: nat)
    ensures var (first, users1, tokens1) := SuperuserStep(users, tokens, env, force, hash, fractionLength);
      first.SuperuserCreated? ==>
        var (second, users2, tokens2) := SuperuserStep(users1, tokens1, env, secondForce, hash, fractionLength);
        && users2 == users1 && tokens2 == tokens1
        && second == if secondForce then UsernameTaken(env["SUPERUSER_USERNAME"]) else SuperuserExists
  {
    var (first, users1, tokens1) := SuperuserStep(users, tokens, env, force, hash, fractionLength);
    if first.SuperuserCreated? {
      assert users1[|users|].isSuperuser;
      assert HasSuperuser(users1);
      assert users1[|users|].username == env["SUPERUSER_USERNAME"];
      assert UsernameInUse(users1, env["SUPERUSER_USERNAME"]);
    }
  }

  /** `create_superuser [--force]`: `env` is `os.environ`, `hash` is
      `hash_token` and `fractionLength` is FRACTION_LENGTH. */
  method CreateSuperuser(db: Db, env: map<string, string>, force: bool, hash: string -> string, fractionLength: nat)
    returns (outcome: SuperuserOutcome)
    modifies db
    ensures (outcome, db.users, db.tokens) == SuperuserStep(old(db.users), old(db.tokens), env, force, hash, fractionLength)
    ensures db.groups == old(db.groups)
  {
    if HasSuperuser(db.users) && !force {
      return SuperuserExists;
    }
    var username := Truthy(env, "SUPERUSER_USERNAME");
    var email := Truthy(env, "SUPERUSER_EMAIL");
    var password := Truthy(env, "SUPERUSER_PASSWORD");
    if username.None? {
      return MissingVariable("SUPERUSER_USERNAME");
    }
    if email.None? {
      return MissingVariable("SUPERUSER_EMAIL");
    }
    if password.None? {
      return MissingVariable("SUPERUSER_PASSWORD");
    }
    if UsernameInUse(db.users, username.value) {
      return UsernameTaken(username.value);
    }
    var superuser := db.CreateUser(UserRow(username.value, NormalizeEmail(email.value), true, {}, None));
    var authToken := Truthy(env, "SUPERUSER_AUTH_TOKEN");
    if authToken.None? {
      return SuperuserCreated(superuser, false);
    }
    db.CreateToken(AuthToken(authToken.value, hash, fractionLength, superuser));
    return SuperuserCreated(superuser, true);
  }
}
