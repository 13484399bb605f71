/**
 * The mock authentication store: a table of users held in memory, the signed-in
 * user and token mirrored into browser storage, and login / register / logout /
 * checkAuth over them.
 */
module Auth {
  import opened Base
  import opened RecordList

  datatype User = User(id: nat, username: string, email: string, password: string)

  /** A user as it is stored and returned after sign-in: the password field is deleted. */
  datatype PublicUser = PublicUser(id: nat, username: string, email: string)

  function WithoutPassword(u: User): (p: PublicUser)
    ensures p.id == u.id && p.username == u.username && p.email == u.email
  {
    PublicUser(u.id, u.username, u.email)
  }

  /** The two hard-coded accounts the table starts with. */
  function DemoUsers(): (r: seq<User>)
    ensures |r| == 2 && IdsSequential(r) && EmailsDistinct(r)
  {
    [User(1, "demo", "demo@example.com", "demo123"), User(2, "test", "test@example.com", "test123")]
  }

  function UserId(u: User): nat { u.id }
  function UserEmail(u: User): string { u.email }
  function Credentials(u: User): (string, string) { (u.email, u.password) }

  /** Ids are 1, 2, ..., n in table order. */
  ghost predicate IdsSequential(users: seq<User>)
  {
    forall j :: 0 <= j < |users| ==> users[j].id == j + 1
  }

  ghost predicate EmailsDistinct(users: seq<User>)
  {
    forall i, j :: 0 <= i < j < |users| ==> users[i].email != users[j].email
  }

  // ---------------------------------------------------------------------------
  // The token `'fake-jwt-token-' + id`, with the number written in decimal

  const TokenPrefix: string := "fake-jwt-token-"

  predicate IsDigit(c: char) { '0' <= c <= '9' }

  function DigitChar(d: nat): (c: char)
    requires d < 10
    ensures IsDigit(c)
  {
    ('0' as int + d) as char
  }

  /** A natural number in decimal, as JavaScript's string concatenation writes it. */
  function Decimal(n: nat): (s: string)
    ensures |s| > 0
    ensures forall i :: 0 <= i < |s| ==> IsDigit(s[i])
  {
    if n < 10 then [DigitChar(n)] else Decimal(n / 10) + [DigitChar(n % 10)]
  }

  function ParseDecimal(s: string): nat
    requires forall i :: 0 <= i < |s| ==> IsDigit(s[i])
  {
    if s == [] then 0
    else
      assert IsDigit(s[|s| - 1]);
      ParseDecimal(s[..|s| - 1]) * 10 + (s[|s| - 1] as int - '0' as int)
  }

  lemma {:induction false} DecimalRoundTrip(n: nat)
    ensures ParseDecimal(Decimal(n)) == n
  {
    if n >= 10 {
      var s := Decimal(n);
      assert s[..|s| - 1] == Decimal(n / 10);
      DecimalRoundTrip(n / 10);
    }
  }

  function Token(id: nat): (t: string)
    ensures |t| > |TokenPrefix| && t[..|TokenPrefix|] == TokenPrefix
    ensures forall i :: |TokenPrefix| <= i < |t| ==> IsDigit(t[i])
  {
    TokenPrefix + Decimal(id)
  }

  /** Different users never receive the same token. */
  lemma TokenInjective(a: nat, b: nat)
    requires Token(a) == Token(b)
    ensures a == b
  {
    assert Decimal(a) == Token(a)[|TokenPrefix|..];
    assert Decimal(b) == Token(b)[|TokenPrefix|..];
    DecimalRoundTrip(a);
    DecimalRoundTrip(b);
  }

  // ---------------------------------------------------------------------------
  // The table lookups of login and register

  /** login's `users.find`: the first user with exactly this e-mail and password, without its password. */
  function LoginLookup(users: seq<User>, email: string, password: string): (r: Result<PublicUser, string>)
    ensures r.Err? <==> forall j :: 0 <= j < |users| ==> users[j].email != email || users[j].password != password
    ensures r.Err? ==> r.error == "Invalid email or password"
    ensures r.Ok? ==> exists j :: 0 <= j < |users| && users[j].email == email && users[j].password == password
                                && r.value == WithoutPassword(users[j])
  {
    match FindIndex(users, Credentials, (email, password))
    case None => Err("Invalid email or password")
    case Some(i) => Ok(WithoutPassword(users[i]))
  }

  /** register's table update: refuse a known e-mail, otherwise append a user with the next id. */
  function RegisterUser(users: seq<User>, username: string, email: string, password: string): (r: Result<seq<User>, string>)
    ensures r.Err? <==> exists j :: 0 <= j < |users| && users[j].email == email
    ensures r.Err? ==> r.error == "Email already registered"
    ensures r.Ok? ==> r.value == users + [User(|users| + 1, username, email, password)]
  {
    if FindIndex(users, UserEmail, email).Some? then Err("Email already registered")
    else Ok(users + [User(|users| + 1, username, email, password)])
  }

  /**
   * Registration keeps the table's ids 1..n and its e-mails distinct, so ids
   * stay distinct as well.
   */
  lemma RegisterKeepsTableWellFormed(users: seq<User>, username: string, email: string, password: string)
    requires IdsSequential(users) && EmailsDistinct(users)
    ensures var r := RegisterUser(users, username, email, password);
      r.Ok? ==> IdsSequential(r.value) && EmailsDistinct(r.value)
    ensures var r := RegisterUser(users, username, email, password);
      r.Ok? ==> forall i, j :: 0 <= i < j < |r.value| ==> r.value[i].id != r.value[j].id
  {
  }

  class AuthStore {
    /** The module-level `users` array. */
    var users: seq<User>
    var user: Option<PublicUser>
    var isAuthenticated: bool
    var token: Option<string>
    /** localStorage 'user', parsed. */
    var storedUser: Option<PublicUser>
    /** localStorage 'token'. */
    var storedToken: Option<string>

    ghost predicate Valid()
      reads this
    {
      isAuthenticated == user.Some? && IdsSequential(users) && EmailsDistinct(users)
    }

    /** The initial state, read from browser storage. */
    constructor (savedUser: Option<PublicUser>, savedToken: Option<string>)
      ensures Valid()
      ensures users == DemoUsers()
      ensures user == savedUser && isAuthenticated == savedUser.Some? && token == savedToken
      ensures storedUser == savedUser && storedToken == savedToken
    {
      users := DemoUsers();
      user := savedUser;
      isAuthenticated := savedUser.Some?;
      token := savedToken;
      storedUser := savedUser;
      storedToken := savedToken;
    }

    /** SET_USER: `isAuthenticated` follows the user, and storage holds it or drops it. */
    method SetUser(u: Option<PublicUser>)
      requires Valid()
      modifies this`user, this`isAuthenticated, this`storedUser
      ensures Valid()
      ensures user == u && isAuthenticated == u.Some? && storedUser == u
    {
      user := u;
      isAuthenticated := u.Some?;
      storedUser := u;
    }

    /** SET_TOKEN: storage holds a truthy token and drops anything else. */
    method SetToken(t: Option<string>)
      modifies this`token, this`storedToken
      ensures token == t
      ensures storedToken == (if Truthy(t) then t else None)
    {
      token := t;
      storedToken := if Truthy(t) then t else None;
    }

    /** login: on a match sign in without the password; otherwise fail and change nothing. */
    method Login(email: string, password: string) returns (r: Result<PublicUser, string>)
      requires Valid()
      modifies this
      ensures Valid()
      ensures r == LoginLookup(old(users), email, password)
      ensures users == old(users)
      ensures r.Ok? ==> user == Some(r.value) && isAuthenticated && storedUser == Some(r.value)
      ensures r.Ok? ==> token == Some(Token(r.value.id)) && storedToken == token
      ensures r.Err? ==> user == old(user) && isAuthenticated == old(isAuthenticated) && token == old(token)
      ensures r.Err? ==> storedUser == old(storedUser) && storedToken == old(storedToken)
    {
      r := LoginLookup(users, email, password);
      if r.Ok? {
        SetUser(Some(r.value));
        SetToken(Some(Token(r.value.id)));
      }
    }

    /**
     * register: a known e-mail fails and changes nothing; otherwise the user is
     * appended with id `users.length + 1` and signed in without the password.
     */
    method Register(username: string, email: string, password: string) returns (r: Result<PublicUser, string>)
      requires Valid()
      modifies this
      ensures Valid()
      ensures r.Err? <==> exists j :: 0 <= j < |old(users)| && old(users)[j].email == email
      ensures r.Err? ==> r.error == "Email already registered" && users == old(users)
      ensures r.Err? ==> user == old(user) && token == old(token) && storedUser == old(storedUser)
      ensures r.Err? ==> storedToken == old(storedToken)
      ensures r.Ok? ==> users == old(users) + [User(|old(users)| + 1, username, email, password)]
      ensures r.Ok? ==> r.value == PublicUser(|old(users)| + 1, username, email)
      ensures r.Ok? ==> user == Some(r.value) && isAuthenticated && storedUser == Some(r.value)
      ensures r.Ok? ==> token == Some(Token(r.value.id)) && storedToken == token
    {
      var table := RegisterUser(users, username, email, password);
      if table.Err? {
        return Err(table.error);
      }
      RegisterKeepsTableWellFormed(users, username, email, password);
      var newUser := User(|users| + 1, username, email, password);
      users := table.value;
      r := Ok(WithoutPassword(newUser));
      SetUser(Some(r.value));
      SetToken(Some(Token(newUser.id)));
    }

    /** logout. */
    method Logout()
      requires Valid()
      modifies this
      ensures Valid() && users == old(users)
      ensures user == None && !isAuthenticated && token == None
      ensures storedUser == None && storedToken == None
    {
      SetUser(None);
      SetToken(None);
    }

    /**
     * checkAuth: keep the stored user only while its id is still in the table;
     * otherwise clear user and token.
     */
    method CheckAuth() returns (r: Option<PublicUser>)
      requires Valid()
      modifies this
      ensures Valid() && users == old(users)
      ensures var known := old(storedUser).Some? && exists j :: 0 <= j < |users| && users[j].id == old(storedUser).value.id;
        (known ==> r == old(storedUser) && user == old(storedUser) && isAuthenticated
                   && storedUser == old(storedUser) && token == old(token) && storedToken == old(storedToken))
        && (!known ==> r == None && user == None && !isAuthenticated && storedUser == None
                       && token == None && storedToken == None)
    {
      var saved := storedUser;
      if saved.Some? && FindIndex(users, UserId, saved.value.id).Some? {
        SetUser(saved);
        r := saved;
      } else {
        SetUser(None);
        SetToken(None);
        r := None;
      }
    }
  }
}
