/**
 * The demo login handler: three fixed users, each of whom logs in with their
 * username as the password.
 */
module Login {
  import opened Http
  import opened Types

  /** The demo users; every `createdAt` is the moment the module was loaded. */
  function DemoUsers(loadedAt: nat): (users: seq<User>)
    ensures |users| == 3
    ensures forall u <- users :: u.username == RoleName(u.role)
    ensures forall u <- users :: u.createdAt == loadedAt
  {
    [ User("1", "admin", "Admin User", "admin@bdticket.com", Admin, loadedAt),
      User("2", "manager", "Manager User", "manager@bdticket.com", Manager, loadedAt),
      User("3", "staff", "Staff User", "staff@bdticket.com", Staff, loadedAt) ]
  }

  /** The handler's test for one user. */
  predicate Accepts(u: User, credentials: LoginRequest)
  {
    u.username == credentials.username && credentials.password == credentials.username
  }

  /** `users[i]` is accepted and no user before it is. */
  predicate FirstAcceptedAt(users: seq<User>, credentials: LoginRequest, i: nat)
  {
    i < |users| && Accepts(users[i], credentials)
    && forall j :: 0 <= j < i ==> !Accepts(users[j], credentials)
  }

  /** `users.find(u => Accepts(u, credentials))`: the first user accepted, if any. */
  function Find(users: seq<User>, credentials: LoginRequest): (r: Option<User>)
    ensures r.Some? <==> exists u <- users :: Accepts(u, credentials)
    ensures r.Some? ==> r.value in users && Accepts(r.value, credentials)
    ensures r.Some? ==> exists i: nat :: FirstAcceptedAt(users, credentials, i) && users[i] == r.value
  {
    if users == [] then None
    else if Accepts(users[0], credentials) then Some(users[0])
    else
      var r := Find(users[1..], credentials);
      assert forall u <- users[1..] :: u in users;
      assert forall u <- users :: u == users[0] || u in users[1..];
      if r.Some? then
        var i: nat :| FirstAcceptedAt(users[1..], credentials, i) && users[1..][i] == r.value;
        assert FirstAcceptedAt(users, credentials, i + 1);
        r
      else r
  }

  /** `POST /api/auth/login`: `{ user }`, or 401 with `Invalid credentials`. */
  function Post(credentials: LoginRequest, loadedAt: nat): (r: Response<User>)
    ensures r.Ok? <==>
      credentials.username in {"admin", "manager", "staff"} && credentials.password == credentials.username
    ensures r.Error? ==> r.status == 401 && r.message == "Invalid credentials"
    ensures r.Ok? ==> r.status == 200 && r.body.username == credentials.username && r.body in DemoUsers(loadedAt)
  {
    AcceptedExactlyDemoCredentials(credentials, loadedAt);
    match Find(DemoUsers(loadedAt), credentials)
    case Some(u) => Ok(200, u)
    case None => Error(401, "Invalid credentials")
  }

  /** Some demo user accepts the credentials exactly when they name a demo user twice. */
  lemma AcceptedExactlyDemoCredentials(credentials: LoginRequest, loadedAt: nat)
    ensures (exists u <- DemoUsers(loadedAt) :: Accepts(u, credentials)) <==>
      credentials.username in {"admin", "manager", "staff"} && credentials.password == credentials.username
  {
    var users := DemoUsers(loadedAt);
    if credentials.password == credentials.username {
      if credentials.username == "admin" {
        assert Accepts(users[0], credentials);
      } else if credentials.username == "manager" {
        assert Accepts(users[1], credentials);
      } else if credentials.username == "staff" {
        assert Accepts(users[2], credentials);
      }
    }
  }

  /** No two demo users share a username, so a login matches at most one user. */
  lemma DemoUsernamesDistinct(loadedAt: nat)
    ensures var users := DemoUsers(loadedAt);
      forall i, j :: 0 <= i < j < |users| ==> users[i].username != users[j].username
  {
  }

  /** A successful login answers the one demo user with the given username. */
  lemma LoginAnswersTheNamedUser(credentials: LoginRequest, loadedAt: nat, u: User)
    requires u in DemoUsers(loadedAt) && u.username == credentials.username
    requires Post(credentials, loadedAt).Ok?
    ensures Post(credentials, loadedAt).body == u
  {
    DemoUsernamesDistinct(loadedAt);
  }
}
