/** The account rules `ApiClient` applies without the server
    (lib/api.ts:101-213): user-name normalisation, the three built-in demo
    accounts that answer a degraded-mode login, and the checks a local
    registration must pass. */
module Accounts {
  import opened Text
  import opened Parking
  import opened Http

  /** `str.toLowerCase().replace(/\s+/g, "")` */
  function Normalize(s: string): (r: string)
    ensures |r| <= |s|
    ensures forall i :: 0 <= i < |r| ==> !IsSpace(r[i]) && !('A' <= r[i] <= 'Z')
  {
    var lowered := ToLower(s);
    var r := RemoveSpaces(lowered);
    assert forall i :: 0 <= i < |r| ==> r[i] in r && r[i] in lowered;
    r
  }

  /** Normalising twice is normalising once. */
  lemma NormalizeIdempotent(s: string)
    ensures Normalize(Normalize(s)) == Normalize(s)
  {
    var n := Normalize(s);
    var lowered := ToLower(n);
    assert lowered == n by {
      assert forall i :: 0 <= i < |n| ==> LowerChar(n[i]) == n[i];
    }
    RemoveSpacesNoSpace(n);
  }

  /** Normalisation works character by character. */
  lemma NormalizeConcat(a: string, b: string)
    ensures Normalize(a + b) == Normalize(a) + Normalize(b)
  {
    ToLowerConcat(a, b);
    RemoveSpacesConcat(ToLower(a), ToLower(b));
  }

  /** White space makes no difference: a name with a space inserted
      normalises like the name without it. */
  lemma NormalizeIgnoresSpace(a: string, b: string)
    ensures Normalize(a + " " + b) == Normalize(a + b)
  {
    NormalizeConcat(a + " ", b);
    NormalizeConcat(a, " ");
    NormalizeConcat(a, b);
    assert Normalize(" ") == "";
  }

  /** Letter case makes no difference: names that agree once each character
      is lowered normalise alike. */
  lemma NormalizeIgnoresCase(a: string, b: string)
    requires |a| == |b| && forall i :: 0 <= i < |a| ==> LowerChar(a[i]) == LowerChar(b[i])
    ensures Normalize(a) == Normalize(b)
  {
    assert ToLower(a) == ToLower(b);
  }

  datatype DemoUser = DemoUser(username: string, password: string, role: string, id: string)

  /** The accounts a degraded-mode login accepts. */
  const DemoUsers: seq<DemoUser> := [
    DemoUser("admin", "admin", "admin", "admin-1"),
    DemoUser("employee", "employee", "employee", "emp-1"),
    DemoUser("RedaSalem", "012345678", "admin", "reda-1")
  ]

  /** The names a registration may not take, besides earlier registrations. */
  const DemoUsernames: seq<string> := ["admin", "employee", "RedaSalem"]

  const InvalidCredentialsMessage := "Invalid username or password"

  /** The test `demoUsers.find` applies to each demo account. */
  predicate Accepts(u: DemoUser, username: string, password: string)
  {
    Normalize(u.username) == Normalize(username) && u.password == password
  }

  /** `demoUsers.find(...)`: the first demo account whose normalised name
      matches the normalised input and whose password matches exactly. */
  function FindDemoUser(users: seq<DemoUser>, username: string, password: string): (r: Option<DemoUser>)
    ensures r.Some? ==> r.value in users && Normalize(r.value.username) == Normalize(username)
                        && r.value.password == password
    ensures r.None? <==> forall u :: u in users ==> Normalize(u.username) != Normalize(username)
                                                    || u.password != password
    ensures r.Some? ==> exists k :: 0 <= k < |users| && users[k] == r.value
                                   && forall j :: 0 <= j < k ==> !Accepts(users[j], username, password)
  {
    if users == [] then None
    else if Accepts(users[0], username, password) then Some(users[0])
    else
      var r := FindDemoUser(users[1..], username, password);
      assert forall u :: u in users[1..] ==> u in users;
      assert r.Some? ==> exists k :: 1 <= k < |users| && users[k] == r.value
                                     && forall j :: 0 <= j < k ==> !Accepts(users[j], username, password) by {
        if r.Some? {
          var k :| 0 <= k < |users[1..]| && users[1..][k] == r.value
                   && forall j :: 0 <= j < k ==> !Accepts(users[1..][j], username, password);
          assert users[k + 1] == r.value;
          forall j | 1 <= j < k + 1 ensures !Accepts(users[j], username, password) {
            assert users[j] == users[1..][j - 1];
          }
        }
      }
      r
  }

  /** The answer of a degraded-mode login: the demo account's id, name and
      role with the token "demo-token-<id>", or "Invalid username or password". */
  function OfflineLogin(username: string, password: string): (r: ApiResponse<LoginData>)
    ensures r.Success? <==> exists d :: d in DemoUsers && Normalize(d.username) == Normalize(username)
                                                       && d.password == password
    ensures r.Success? ==> exists d :: d in DemoUsers && Normalize(d.username) == Normalize(username)
                                       && d.password == password
                                       && r.data == LoginData(User(d.id, d.username, d.role), "demo-token-" + d.id)
    ensures r.Error? ==> r == Error(InvalidCredentialsMessage, None)
  {
    match FindDemoUser(DemoUsers, username, password)
    case Some(d) => Success(LoginData(User(d.id, d.username, d.role), "demo-token-" + d.id))
    case None => Error(InvalidCredentialsMessage, None)
  }

  /** `login`: the remote result, unless it is an error while the latch is
      up, in which case the demo accounts decide. */
  function LoginResult(remote: ApiResponse<LoginData>, offline: bool, username: string, password: string): (r: ApiResponse<LoginData>)
    ensures remote.Error? && offline ==> r == OfflineLogin(username, password)
    ensures !(remote.Error? && offline) ==> r == remote
  {
    if remote.Error? && offline then OfflineLogin(username, password) else remote
  }

  /** A failed login always explains itself: its message is never empty. */
  lemma LoginErrorsExplained(remote: ApiResponse<LoginData>, offline: bool, username: string, password: string)
    requires remote.Error? ==> remote.message != ""
    ensures LoginResult(remote, offline, username, password).Error? ==> LoginResult(remote, offline, username, password).message != ""
  {
  }

  /** A name already in lower case without white space is its own normal form. */
  lemma LowerCaseName(s: string)
    requires forall i :: 0 <= i < |s| ==> 'a' <= s[i] <= 'z'
    ensures Normalize(s) == s
  {
    assert ToLower(s) == s;
    RemoveSpacesNoSpace(s);
  }

  lemma LowerRedaSalem()
    ensures ToLower("RedaSalem") == "redasalem"
  {
    var s, t := "RedaSalem", "redasalem";
    assert forall i :: 0 <= i < |s| ==> LowerChar(s[i]) == t[i];
  }

  lemma StripRedaSalem()
    ensures RemoveSpaces("redasalem") == "redasalem"
  {
    RemoveSpacesNoSpace("redasalem");
  }

  lemma AdminIsLowerCase()
    ensures Normalize("admin") == "admin"
  {
    var t := "admin";
    assert forall i :: 0 <= i < |t| ==> 'a' <= t[i] <= 'z';
    LowerCaseName(t);
  }

  lemma EmployeeIsLowerCase()
    ensures Normalize("employee") == "employee"
  {
    var t := "employee";
    assert forall i :: 0 <= i < |t| ==> 'a' <= t[i] <= 'z';
    LowerCaseName(t);
  }

  /** The third demo account logs in under its name in lower case. */
  lemma NormalizedRedaSalem()
    ensures Normalize("RedaSalem") == "redasalem"
  {
    LowerRedaSalem();
    StripRedaSalem();
  }

  /** Any spelling of "admin" that normalises to it ("ADmin", " admin ")
      logs in as the administrator demo account with its own password, and
      with no other password. */
  lemma AdminDemoLogin(username: string, password: string)
    requires Normalize(username) == "admin"
    ensures OfflineLogin(username, password).Success? <==> password == "admin"
    ensures password == "admin" ==>
              OfflineLogin(username, password) == Success(LoginData(User("admin-1", "admin", "admin"), "demo-token-" + "admin-1"))
  {
    AdminIsOnlyDemoAdmin();
    AdminIsLowerCase();
    assert DemoUsers[0] in DemoUsers;
    var r := OfflineLogin(username, password);
    if r.Success? {
      var d :| d in DemoUsers && Normalize(d.username) == Normalize(username) && d.password == password
               && r.data == LoginData(User(d.id, d.username, d.role), "demo-token-" + d.id);
      assert d == DemoUsers[0];
      assert d.id == "admin-1" && d.username == "admin" && d.role == "admin";
    }
  }

  /** Of the demo accounts only the first has the normalised name "admin". */
  lemma AdminIsOnlyDemoAdmin()
    ensures forall d :: d in DemoUsers && Normalize(d.username) == "admin" ==> d == DemoUsers[0]
  {
    forall d | d in DemoUsers && Normalize(d.username) == "admin" ensures d == DemoUsers[0] {
      var i :| 0 <= i < |DemoUsers| && DemoUsers[i] == d;
      if i == 1 {
        EmployeeIsNotAdmin();
      } else if i == 2 {
        RedaSalemIsNotAdmin();
      }
    }
  }

  lemma EmployeeIsNotAdmin()
    ensures Normalize("employee") != "admin"
  {
    EmployeeIsLowerCase();
  }

  lemma RedaSalemIsNotAdmin()
    ensures Normalize("RedaSalem") != "admin"
  {
    NormalizedRedaSalem();
  }

  datatype Role = Admin | Employee

  function RoleName(role: Role): string
  {
    match role
    case Admin => "admin"
    case Employee => "employee"
  }

  /** A locally registered account, as kept in the `registered_users` slot. */
  datatype Account = Account(id: string, username: string, role: Role, registeredAt: string)

  /** The body of a successful registration. */
  datatype Registration = Registration(user: Account, message: string)

  const UsernameTooShortMessage := "Username must be at least 3 characters long"
  const PasswordTooShortMessage := "Password must be at least 6 characters long"
  const UsernameTakenMessage := "This username is already taken. Please choose a different username."
  const AccountCreatedMessage := "Account created successfully! You can now sign in with your credentials."

  function Usernames(accounts: seq<Account>): (names: seq<string>)
    ensures |names| == |accounts|
    ensures forall i :: 0 <= i < |accounts| ==> names[i] == accounts[i].username
  {
    if accounts == [] then [] else [accounts[0].username] + Usernames(accounts[1..])
  }

  /** A name clashes with a list of names followed by the names of some
      accounts exactly when it clashes with one of the names or with one of
      the accounts. */
  lemma ClashSplit(names: seq<string>, registered: seq<Account>, n: string)
    ensures (exists e :: e in names + Usernames(registered) && Normalize(e) == n) <==>
              (exists e :: e in names && Normalize(e) == n)
              || (exists a :: a in registered && Normalize(a.username) == n)
  {
    var all := names + Usernames(registered);
    if a :| a in registered && Normalize(a.username) == n {
      var i :| 0 <= i < |registered| && registered[i] == a;
      assert all[|names| + i] == a.username;
    }
    if e :| e in all && Normalize(e) == n {
      var i :| 0 <= i < |all| && all[i] == e;
      if i >= |names| {
        assert registered[i - |names|] in registered;
      }
    }
  }

  /** `allExistingUsers.some(...)`: the normalised name equals the normalised
      form of a demo name or of a registered account's name. */
  predicate UsernameTaken(username: string, registered: seq<Account>)
    ensures UsernameTaken(username, registered) <==>
              (exists e :: e in DemoUsernames && Normalize(e) == Normalize(username))
              || (exists a :: a in registered && Normalize(a.username) == Normalize(username))
  {
    ClashSplit(DemoUsernames, registered, Normalize(username));
    exists e :: e in DemoUsernames + Usernames(registered) && Normalize(e) == Normalize(username)
  }

  /** The checks of `register`, in the order the source makes them; `None`
      when the account may be created. */
  function RegistrationError(username: string, password: string, registered: seq<Account>): (r: Option<string>)
    ensures r == Some(UsernameTooShortMessage) <==> |username| < 3
    ensures r == Some(PasswordTooShortMessage) <==> |username| >= 3 && |password| < 6
    ensures r == Some(UsernameTakenMessage) <==> |username| >= 3 && |password| >= 6 && UsernameTaken(username, registered)
    ensures r == None <==> |username| >= 3 && |password| >= 6 && !UsernameTaken(username, registered)
  {
    if |username| < 3 then Some(UsernameTooShortMessage)
    else if |password| < 6 then Some(PasswordTooShortMessage)
    else if UsernameTaken(username, registered) then Some(UsernameTakenMessage)
    else None
  }

  /** Once an account is registered, the same name, in any case and spacing,
      cannot be registered again, whatever password comes with it. */
  lemma RegisterTwiceRejected(username: string, password: string, registered: seq<Account>,
                              account: Account, again: string, password2: string)
    requires RegistrationError(username, password, registered) == None
    requires account.username == username
    requires Normalize(again) == Normalize(username) && |again| >= 3 && |password2| >= 6
    ensures RegistrationError(again, password2, registered + [account]) == Some(UsernameTakenMessage)
  {
    var names := DemoUsernames + Usernames(registered + [account]);
    assert names[|names| - 1] == username;
    assert username in names;
  }

  /** A demo account's name, in any case and spacing, is never available. */
  lemma DemoNamesReserved(username: string, password: string, registered: seq<Account>)
    requires |username| >= 3 && |password| >= 6
    requires exists d :: d in DemoUsernames && Normalize(d) == Normalize(username)
    ensures RegistrationError(username, password, registered) == Some(UsernameTakenMessage)
  {
    var d :| d in DemoUsernames && Normalize(d) == Normalize(username);
    assert d in DemoUsernames + Usernames(registered);
  }

  /** A degraded-mode login never consults the registered accounts: a name
      that registration accepted cannot log in while degraded. */
  lemma RegisteredCannotLogInOffline(username: string, password: string, registered: seq<Account>, anyPassword: string)
    requires RegistrationError(username, password, registered) == None
    ensures OfflineLogin(username, anyPassword) == Error(InvalidCredentialsMessage, None)
  {
    assert !UsernameTaken(username, registered);
    forall d | d in DemoUsers
      ensures Normalize(d.username) != Normalize(username)
    {
      assert d.username in DemoUsernames;
    }
  }
}
