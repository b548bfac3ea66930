/** The session store (`useAuthStore`): the signed-in user, checked against a
    fixed table of demo accounts, or a user created by signing up. The
    simulated network delay is not modelled. */
module AuthState {
  import opened Types
  import opened Ids

  datatype Credential = Credential(password: string, user: User)

  /** A partial `User` merged into the session user by `updateUser`. */
  datatype UserPatch = UserPatch(
    id: Option<Id>,
    email: Option<string>,
    name: Option<string>,
    avatar: Option<string>,
    role: Option<Role>,
    createdAt: Option<Time>)

  /** The avatar-service address for a seed. */
  const AvatarService: string := "https://api.dicebear.com/7.x/avataaars/svg?seed="

  function AvatarUrl(seed: string): string {
    AvatarService + seed
  }

  /** The demo accounts, keyed by e-mail. `loadedAt` is the moment the table
      was built, which becomes each user's `createdAt`. */
  function MockUsers(loadedAt: Time): (r: map<string, Credential>)
    ensures r.Keys == {"admin@taskflow.com", "manager@taskflow.com", "member@taskflow.com"}
    ensures forall e :: e in r ==> r[e].user.email == e && r[e].user.createdAt == loadedAt
  {
    map[
      "admin@taskflow.com" := Credential("admin123",
        User("1", "admin@taskflow.com", "Rajesh Kumar", Some(AvatarUrl("Rajesh")), Admin, loadedAt)),
      "manager@taskflow.com" := Credential("manager123",
        User("2", "manager@taskflow.com", "Priya Sharma", Some(AvatarUrl("Priya")), Manager, loadedAt)),
      "member@taskflow.com" := Credential("member123",
        User("3", "member@taskflow.com", "Amit Patel", Some(AvatarUrl("Amit")), Member, loadedAt))
    ]
  }

  /** The lookup `login` performs: the stored user when the e-mail is a key
      and the password is exactly the stored one, nothing otherwise. */
  function Authenticate(table: map<string, Credential>, email: string, password: string): (r: Option<User>)
    ensures r.Some? <==> email in table && table[email].password == password
    ensures r.Some? ==> r.value == table[email].user
  {
    if email in table && table[email].password == password then Some(table[email].user) else None
  }

  /** Exactly the three demo e-mail/password pairs sign in. */
  lemma DemoAccounts(loadedAt: Time, email: string, password: string)
    ensures Authenticate(MockUsers(loadedAt), email, password).Some? <==>
            (email == "admin@taskflow.com" && password == "admin123") ||
            (email == "manager@taskflow.com" && password == "manager123") ||
            (email == "member@taskflow.com" && password == "member123")
    ensures email == "admin@taskflow.com" && password == "admin123" ==>
            Authenticate(MockUsers(loadedAt), email, password).value.role == Admin
  {
  }

  /** `{ ...user, ...updates }`: every field the patch sets takes the
      patch's value and every other field keeps the user's. */
  function PatchUser(u: User, p: UserPatch): (r: User)
    ensures Overrides(p.id, u.id, r.id)
    ensures Overrides(p.email, u.email, r.email)
    ensures Overrides(p.name, u.name, r.name)
    ensures OverridesOptional(p.avatar, u.avatar, r.avatar)
    ensures Overrides(p.role, u.role, r.role)
    ensures Overrides(p.createdAt, u.createdAt, r.createdAt)
  {
    User(p.id.GetOr(u.id), p.email.GetOr(u.email), p.name.GetOr(u.name),
         if p.avatar.Some? then p.avatar else u.avatar,
         p.role.GetOr(u.role), p.createdAt.GetOr(u.createdAt))
  }

  /** The empty patch changes nothing, and applying the same patch twice is
      the same as applying it once. */
  lemma PatchUserLaws(u: User, p: UserPatch)
    ensures PatchUser(u, UserPatch(None, None, None, None, None, None)) == u
    ensures PatchUser(PatchUser(u, p), p) == PatchUser(u, p)
  {
  }

  class AuthStore {
    const credentials: map<string, Credential>
    var user: Option<User>
    var isAuthenticated: bool

    /** A signed-out session over the demo accounts built at `loadedAt`. */
    constructor (loadedAt: Time)
      ensures credentials == MockUsers(loadedAt)
      ensures user == None && !isAuthenticated
    {
      credentials := MockUsers(loadedAt);
      user, isAuthenticated := None, false;
    }

    /** `login`: succeeds iff the account exists and the password matches;
        a failed attempt changes nothing. */
    method Login(email: string, password: string) returns (ok: bool)
      modifies this`user, this`isAuthenticated
      ensures ok <==> email in credentials && credentials[email].password == password
      ensures ok ==> user == Some(credentials[email].user) && isAuthenticated
      ensures !ok ==> user == old(user) && isAuthenticated == old(isAuthenticated)
    {
      var found := Authenticate(credentials, email, password);
      ok := found.Some?;
      if ok {
        user, isAuthenticated := found, true;
      }
    }

    /** `signup`: always succeeds with a new user under a fresh identifier;
        the role defaults to member. The password is not stored. */
    method Signup(gen: IdGenerator, email: string, password: string, name: string, role: Option<Role>,
                  now: Time, salt: string) returns (ok: bool)
      requires gen.Valid()
      modifies this`user, this`isAuthenticated, gen
      ensures ok && isAuthenticated
      ensures gen.Valid() && gen.counter == old(gen.counter) + 1
      ensures user == Some(User(UniqueId(now, gen.counter, salt), email, name, Some(AvatarUrl(name)),
                                role.GetOr(Member), now))
      ensures user.value.id !in old(gen.issued)
      ensures gen.issued == old(gen.issued) + {user.value.id}
    {
      var id := gen.Next(now, salt);
      user := Some(User(id, email, name, Some(AvatarUrl(name)), role.GetOr(Member), now));
      isAuthenticated := true;
      ok := true;
    }

    method Logout()
      modifies this`user, this`isAuthenticated
      ensures user == None && !isAuthenticated
    {
      user, isAuthenticated := None, false;
    }

    /** `updateUser`: merges the patch into the session user, if any; the
        authentication flag is left as it is. */
    method UpdateUser(p: UserPatch)
      modifies this`user
      ensures old(user).None? ==> user == None
      ensures old(user).Some? ==> user == Some(PatchUser(old(user).value, p))
    {
      if user.Some? {
        user := Some(PatchUser(user.value, p));
      }
    }
  }
}
