/** The identity store of `useAuth.tsx`: a list of registered users that starts with three
    seed accounts, an optional session user, and the two session-storage keys it mirrors
    them to ('ridewise-user' and 'ridewise-users'). */
module Identity {
  import opened Seqs
  import opened Text

  /** The public part of an account, as the session holds it. */
  datatype User = User(fullName: string, username: string, email: string)

  /** A registered account, password included. */
  datatype StoredUser = StoredUser(fullName: string, username: string, email: string, password: string)

  /** The `{ success, error? }` object that `login` and `signup` return. */
  datatype AuthResult = AuthResult(success: bool, error: Option<string>)

  const Succeeded := AuthResult(true, None)

  function Failed(message: string): (r: AuthResult)
    ensures !r.success && r.error == Some(message)
  {
    AuthResult(false, Some(message))
  }

  const InvalidCredentials := "Invalid credentials"
  const EmailTaken := "Email already registered"
  const UsernameTaken := "Username already taken"

  /** The hard-coded seed accounts. */
  const Seeds: seq<StoredUser> := [
    StoredUser("Jyoshika", "jyoshika", "jyoshikajyoshika3@gmail.com", "RideWise123"),
    StoredUser("Demo User", "demo", "demo@ridewise.com", "demo123"),
    StoredUser("Admin", "admin", "admin@ridewise.com", "admin123")
  ]

  /** The session copy of an account: every field but the password. */
  function PublicView(u: StoredUser): User {
    User(u.fullName, u.username, u.email)
  }

  /** The login predicate: email or username equal to the identifier ignoring case, and
      the password equal exactly. */
  predicate Matches(u: StoredUser, identifier: string, password: string) {
    (EqualsIgnoreCase(u.email, identifier) || EqualsIgnoreCase(u.username, identifier))
    && u.password == password
  }

  /** The account `login` picks: the first registered record that matches. */
  function LoginMatch(users: seq<StoredUser>, identifier: string, password: string): (r: Option<nat>)
    ensures r.Some? ==> r.value < |users| && Matches(users[r.value], identifier, password)
    ensures r.Some? ==> forall j :: 0 <= j < r.value ==> !Matches(users[j], identifier, password)
    ensures r.None? <==> forall j :: 0 <= j < |users| ==> !Matches(users[j], identifier, password)
  {
    FindIndex(users, (u: StoredUser) => Matches(u, identifier, password))
  }

  /** The error `signup` reports, if any: a registered email equal ignoring case comes
      first, then a registered username equal ignoring case. */
  function SignupError(users: seq<StoredUser>, username: string, email: string): (r: Option<string>)
    ensures r == Some(EmailTaken) <==>
      exists i :: 0 <= i < |users| && EqualsIgnoreCase(users[i].email, email)
    ensures r == Some(UsernameTaken) <==>
      (forall i :: 0 <= i < |users| ==> !EqualsIgnoreCase(users[i].email, email)) &&
      (exists i :: 0 <= i < |users| && EqualsIgnoreCase(users[i].username, username))
    ensures r.None? <==>
      forall i :: 0 <= i < |users| ==>
        !EqualsIgnoreCase(users[i].email, email) && !EqualsIgnoreCase(users[i].username, username)
  {
    if FindIndex(users, (u: StoredUser) => EqualsIgnoreCase(u.email, email)).Some? then Some(EmailTaken)
    else if FindIndex(users, (u: StoredUser) => EqualsIgnoreCase(u.username, username)).Some? then Some(UsernameTaken)
    else None
  }

  /** No two registered accounts share an email or a username, ignoring case. */
  ghost predicate UniqueIdentities(users: seq<StoredUser>) {
    forall i, j :: 0 <= i < j < |users| ==>
      !EqualsIgnoreCase(users[i].email, users[j].email) &&
      !EqualsIgnoreCase(users[i].username, users[j].username)
  }

  /** `USERS.some(du => du.email === email)`: exact, case-sensitive comparison. */
  predicate IsSeedEmail(email: string) {
    exists i :: 0 <= i < |Seeds| && Seeds[i].email == email
  }

  predicate IsCustom(u: StoredUser) {
    !IsSeedEmail(u.email)
  }

  /** The list persisted under 'ridewise-users': the registered accounts whose email is
      not exactly a seed email. */
  function CustomUsers(users: seq<StoredUser>): (r: seq<StoredUser>)
    ensures |r| <= |users|
    ensures forall i :: 0 <= i < |r| ==> !IsSeedEmail(r[i].email)
  {
    Filter(users, IsCustom)
  }

  /** The registered list the restore effect builds from what 'ridewise-users' holds. */
  function RestoredUsers(saved: Option<seq<StoredUser>>): (r: seq<StoredUser>)
    ensures Seeds <= r
    ensures saved.Some? ==> r[|Seeds|..] == saved.value
    ensures saved.None? ==> r == Seeds
  {
    if saved.Some? then Seeds + saved.value else Seeds
  }

  /** The seed accounts are unique among themselves. */
  lemma SeedsUnique()
    ensures UniqueIdentities(Seeds)
  {
    assert Lower(Seeds[0].email)[0] == 'j' && Lower(Seeds[1].email)[0] == 'd' && Lower(Seeds[2].email)[0] == 'a';
    assert Lower(Seeds[0].username)[0] == 'j' && Lower(Seeds[1].username)[0] == 'd' && Lower(Seeds[2].username)[0] == 'a';
  }

  /** A signup that passes both checks keeps emails and usernames unique. */
  lemma SignupPreservesUniqueness(users: seq<StoredUser>, added: StoredUser)
    requires UniqueIdentities(users)
    requires SignupError(users, added.username, added.email).None?
    ensures UniqueIdentities(users + [added])
  {
    var all := users + [added];
    forall i, j | 0 <= i < j < |all|
      ensures !EqualsIgnoreCase(all[i].email, all[j].email)
      ensures !EqualsIgnoreCase(all[i].username, all[j].username)
    {
      if j == |users| {
        assert all[i] == users[i];
      } else {
        assert all[i] == users[i] && all[j] == users[j];
      }
    }
  }

  /** Signing up makes the account usable: a login with its username, or with its email,
      and its password succeeds afterwards. */
  lemma LoginAfterSignup(users: seq<StoredUser>, added: StoredUser)
    requires SignupError(users, added.username, added.email).None?
    ensures LoginMatch(users + [added], added.username, added.password).Some?
    ensures LoginMatch(users + [added], added.email, added.password).Some?
  {
    var all := users + [added];
    assert all[|users|] == added;
    assert Matches(all[|users|], added.username, added.password);
    assert Matches(all[|users|], added.email, added.password);
  }

  /** When nothing but the new account matches, the login picks exactly that account. */
  lemma LoginAfterSignupPicksNewAccount(users: seq<StoredUser>, added: StoredUser, identifier: string)
    requires Matches(added, identifier, added.password)
    requires forall j :: 0 <= j < |users| ==> !Matches(users[j], identifier, added.password)
    ensures LoginMatch(users + [added], identifier, added.password) == Some(|users|)
  {
    var all := users + [added];
    assert all[|users|] == added;
    assert forall j :: 0 <= j < |users| ==> all[j] == users[j];
  }

  /** An email that passes the signup check is not a seed email. */
  lemma FreshEmailIsNotSeed(users: seq<StoredUser>, username: string, email: string)
    requires Seeds <= users
    requires SignupError(users, username, email).None?
    ensures !IsSeedEmail(email)
  {
  }

  /** Persisting and restoring round-trips: when the accounts after the seeds carry no seed
      email, restoring what 'ridewise-users' holds rebuilds the registered list. */
  lemma PersistRestoreRoundTrip(users: seq<StoredUser>)
    requires Seeds <= users
    requires forall i :: |Seeds| <= i < |users| ==> !IsSeedEmail(users[i].email)
    ensures RestoredUsers(Some(CustomUsers(users))) == users
  {
    var custom := users[|Seeds|..];
    assert users == Seeds + custom;
    FilterConcat(Seeds, custom, IsCustom);
    assert IsSeedEmail(Seeds[0].email) && IsSeedEmail(Seeds[1].email) && IsSeedEmail(Seeds[2].email);
    assert Filter(Seeds, IsCustom) == [] by {
      assert Seeds[1..][1..][1..] == [];
    }
    assert forall i :: 0 <= i < |custom| ==> IsCustom(custom[i]) by {
      forall i | 0 <= i < |custom| ensures IsCustom(custom[i]) {
        assert custom[i] == users[|Seeds| + i];
      }
    }
  }

  /** The behaviour promised for the seed accounts. */
  lemma SeedScenarios()
    ensures LoginMatch(Seeds, "jyoshika", "RideWise123") == Some(0)
    ensures LoginMatch(Seeds, "jyoshikajyoshika3@gmail.com", "wrongpass").None?
    ensures SignupError(Seeds, "newrider", "demo@ridewise.com") == Some(EmailTaken)
  {
    assert Matches(Seeds[0], "jyoshika", "RideWise123") by {
      assert Lower("jyoshika") == "jyoshika";
    }
    assert EqualsIgnoreCase(Seeds[1].email, "demo@ridewise.com") by {
      assert Seeds[1].email == "demo@ridewise.com";
    }
  }

  /** Each seed account logs in by its username and by its email with its own password,
      whatever accounts follow the seeds. */
  lemma SeedLogins(users: seq<StoredUser>, k: nat)
    requires Seeds <= users && k < |Seeds|
    ensures LoginMatch(users, Seeds[k].username, Seeds[k].password) == Some(k)
    ensures LoginMatch(users, Seeds[k].email, Seeds[k].password) == Some(k)
  {
    assert forall j :: 0 <= j < |Seeds| ==> users[j] == Seeds[j];
    assert forall j :: 0 <= j < k ==> Seeds[j].password != Seeds[k].password by {
      assert Seeds[0].password[0] == 'R' && Seeds[1].password[0] == 'd' && Seeds[2].password[0] == 'a';
    }
  }

  /** The identity store. Fields `storedUser` and `storedUsers` are the values of the
      session-storage keys 'ridewise-user' and 'ridewise-users'. */
  class AuthStore {
    var user: Option<User>
    var registeredUsers: seq<StoredUser>
    var storedUser: Option<User>
    var storedUsers: Option<seq<StoredUser>>

    /** The seed accounts always head the registered list. */
    ghost predicate Valid()
      reads this
    {
      Seeds <= registeredUsers
    }

    /** Every account after the seeds has an email that is not exactly a seed email. */
    ghost predicate CustomPartClean()
      reads this
    {
      forall i :: |Seeds| <= i < |registeredUsers| ==> !IsSeedEmail(registeredUsers[i].email)
    }

    /** `isAuthenticated`: `!!user`. */
    function IsAuthenticated(): (r: bool)
      reads this
      ensures r <==> user.Some?
    {
      user.Some?
    }

    /** Mounting the provider: start from no session and the seed list, then restore
        whatever the two session-storage keys hold. */
    constructor (savedUser: Option<User>, savedUsers: Option<seq<StoredUser>>)
      ensures Valid()
      ensures user == savedUser && storedUser == savedUser && storedUsers == savedUsers
      ensures registeredUsers == RestoredUsers(savedUsers)
    {
      user := None;
      registeredUsers := Seeds;
      storedUser := savedUser;
      storedUsers := savedUsers;
      if savedUser.Some? {
        user := savedUser;
      }
      if savedUsers.Some? {
        registeredUsers := Seeds + savedUsers.value;
      }
    }

    method Login(identifier: string, password: string) returns (r: AuthResult)
      requires Valid()
      modifies this
      ensures Valid()
      ensures registeredUsers == old(registeredUsers) && storedUsers == old(storedUsers)
      ensures r.success <==> exists i :: 0 <= i < |registeredUsers| && Matches(registeredUsers[i], identifier, password)
      ensures match LoginMatch(registeredUsers, identifier, password)
        case Some(i) =>
          r == Succeeded && user == Some(PublicView(registeredUsers[i])) && storedUser == user
        case None =>
          r == Failed(InvalidCredentials) && user == old(user) && storedUser == old(storedUser)
      ensures r.success ==> IsAuthenticated()
    {
      var found := LoginMatch(registeredUsers, identifier, password);
      if found.Some? {
        var userData := PublicView(registeredUsers[found.value]);
        user := Some(userData);
        storedUser := Some(userData);
        r := Succeeded;
        return;
      }
      r := Failed(InvalidCredentials);
    }

    method Signup(fullName: string, username: string, email: string, password: string) returns (r: AuthResult)
      requires Valid()
      modifies this
      ensures Valid()
      ensures user == old(user) && storedUser == old(storedUser)
      ensures match SignupError(old(registeredUsers), username, email)
        case Some(message) =>
          r == Failed(message) &&
          registeredUsers == old(registeredUsers) && storedUsers == old(storedUsers)
        case None =>
          r == Succeeded &&
          registeredUsers == old(registeredUsers) + [StoredUser(fullName, username, email, password)] &&
          storedUsers == Some(CustomUsers(registeredUsers))
      ensures old(UniqueIdentities(registeredUsers)) ==> UniqueIdentities(registeredUsers)
      ensures old(CustomPartClean()) ==> CustomPartClean()
      ensures old(CustomPartClean()) && r.success ==> RestoredUsers(storedUsers) == registeredUsers
    {
      var clash := SignupError(registeredUsers, username, email);
      if clash.Some? {
        r := Failed(clash.value);
        return;
      }
      var newUser := StoredUser(fullName, username, email, password);
      if UniqueIdentities(registeredUsers) {
        SignupPreservesUniqueness(registeredUsers, newUser);
      }
      FreshEmailIsNotSeed(registeredUsers, username, email);
      registeredUsers := registeredUsers + [newUser];
      storedUsers := Some(CustomUsers(registeredUsers));
      if old(CustomPartClean()) {
        PersistRestoreRoundTrip(registeredUsers);
      }
      r := Succeeded;
    }

    method Logout()
      requires Valid()
      modifies this
      ensures Valid()
      ensures user == None && storedUser == None && !IsAuthenticated()
      ensures registeredUsers == old(registeredUsers) && storedUsers == old(storedUsers)
    {
      user := None;
      storedUser := None;
    }
  }
}
