/** The session manager: logs in against a fixed credential table and keeps
    the session (a token and the password-free user) in the browser's
    key-value storage. */
module Auth {
  import opened Wrappers
  import opened Types
  import UserCodec
  import Seqs

  const TokenKey: string := "school_portal_token"
  const UserKey: string := "school_portal_user"
  const InvalidCredentials: string := "Credenciais inválidas"
  /** The error toast the service raises itself when a login fails. */
  const LoginFailed: string := "Falha ao fazer login. Verifique suas credenciais."
  const TokenPrefix: string := "mock_token_"

  /** `localStorage`: string keys mapped to string values. */
  class LocalStorage {
    var items: map<string, string>

    constructor ()
      ensures items == map[]
    {
      items := map[];
    }

    method SetItem(key: string, value: string)
      modifies this
      ensures items == old(items)[key := value]
    {
      items := items[key := value];
    }

    method RemoveItem(key: string)
      modifies this
      ensures items == old(items) - {key}
    {
      items := items - {key};
    }
  }

  /** `localStorage.getItem(key)`: the stored value, or null. */
  function GetItem(items: map<string, string>, key: string): Option<string> {
    if key in items then Some(items[key]) else None
  }

  /** A row of the mock credential table: the user record plus its password. */
  datatype Account = Account(password: string, user: User)

  datatype LoginResponse = LoginResponse(user: User, token: string)

  const MockUsers: seq<Account> := [
    Account("senha123", User("1", "João Silva", "aluno@escola.com", Student, None,
      Some("20230001"), None, None, Some("9º Ano A"), [], [])),
    Account("senha123", User("2", "Maria Oliveira", "professor@escola.com", Teacher, None,
      None, Some("T20230001"), None, None, ["Matemática", "Física"], [])),
    Account("senha123", User("3", "Carlos Souza", "diretor@escola.com", Admin, None,
      None, None, Some("A20230001"), None, [], []))
  ]

  function DigitChar(d: nat): (c: char)
    requires d < 10
    ensures '0' <= c <= '9'
  {
    ('0' as int + d) as char
  }

  /** The decimal text of `n`, as template-literal interpolation prints it. */
  function DecimalString(n: nat): (s: string)
    ensures |s| > 0
    ensures forall i :: 0 <= i < |s| ==> '0' <= s[i] <= '9'
  {
    if n < 10 then [DigitChar(n)] else DecimalString(n / 10) + [DigitChar(n % 10)]
  }

  /** `mock_token_${Date.now()}`, with the clock reading passed in. */
  function MintToken(now: nat): string {
    TokenPrefix + DecimalString(now)
  }

  function EmailIs(email: string): Account -> bool {
    (a: Account) => a.user.email == email
  }

  /** `mockUsers.find(u => u.email === email)` */
  function FindAccount(email: string): Option<Account> {
    Seqs.Find(MockUsers, EmailIs(email))
  }

  /** The outcome of `auth.login`: the user and a fresh token, or the
      "Credenciais inválidas" error when the email is unknown or the password
      differs. */
  function Authenticate(email: string, password: string, now: nat): Result<LoginResponse, string> {
    var found := FindAccount(email);
    if found.None? || found.value.password != password then Failure(InvalidCredentials)
    else Success(LoginResponse(found.value.user, MintToken(now)))
  }

  /** The storage after `auth.login` with outcome `r`: both keys are written
      only on success. */
  function StoreAfterLogin(items: map<string, string>, r: Result<LoginResponse, string>): map<string, string> {
    if r.Failure? then items
    else items[TokenKey := r.value.token][UserKey := UserCodec.EncodeUser(r.value.user)]
  }

  /** The storage after `auth.logout`. */
  function StoreAfterLogout(items: map<string, string>): map<string, string> {
    items - {TokenKey, UserKey}
  }

  /** `auth.getToken()` */
  function GetToken(items: map<string, string>): Option<string> {
    GetItem(items, TokenKey)
  }

  /** `auth.isAuthenticated()`: `!!localStorage.getItem(TOKEN_KEY)`. */
  predicate IsAuthenticated(items: map<string, string>) {
    var t := GetToken(items);
    t.Some? && t.value != ""
  }

  /** `auth.getCurrentUser()`: null when the key is absent, empty or undecodable. */
  function GetCurrentUser(items: map<string, string>): Option<User> {
    match GetItem(items, UserKey)
    case None => None
    case Some(json) => if json == "" then None else UserCodec.DecodeUser(json)
  }

  /** `auth.login(email, password)` */
  method Login(store: LocalStorage, email: string, password: string, now: nat)
      returns (r: Result<LoginResponse, string>)
    modifies store
    ensures r == Authenticate(email, password, now)
    ensures store.items == StoreAfterLogin(old(store.items), r)
  {
    r := Authenticate(email, password, now);
    if r.Success? {
      store.SetItem(TokenKey, r.value.token);
      store.SetItem(UserKey, UserCodec.EncodeUser(r.value.user));
    }
  }

  /** `auth.logout()` */
  method Logout(store: LocalStorage)
    modifies store
    ensures store.items == StoreAfterLogout(old(store.items))
  {
    store.RemoveItem(TokenKey);
    store.RemoveItem(UserKey);
  }

  lemma MockEmailsDistinct()
    ensures forall i, j :: 0 <= i < j < |MockUsers| ==> MockUsers[i].user.email != MockUsers[j].user.email
  {
  }

  /** Login succeeds exactly when some table row has that email and that
      password; otherwise it fails with "Credenciais inválidas". */
  lemma LoginSucceedsIff(email: string, password: string, now: nat)
    ensures Authenticate(email, password, now).Success? <==>
            exists i :: 0 <= i < |MockUsers| && MockUsers[i].user.email == email && MockUsers[i].password == password
    ensures Authenticate(email, password, now).Failure? ==>
            Authenticate(email, password, now).error == InvalidCredentials
    ensures Authenticate(email, password, now).Success? ==>
            Authenticate(email, password, now).value.user.email == email &&
            Authenticate(email, password, now).value.token == MintToken(now)
  {
    MockEmailsDistinct();
    var found := FindAccount(email);
    if found.Some? {
      var i :| 0 <= i < |MockUsers| && MockUsers[i] == found.value && EmailIs(email)(MockUsers[i]) &&
               forall j :: 0 <= j < i ==> !EmailIs(email)(MockUsers[j]);
      forall k | 0 <= k < |MockUsers| && MockUsers[k].user.email == email
        ensures k == i
      {
      }
    }
  }

  /** Every table row logs in with its own email and password, as its own user. */
  lemma AuthenticateRow(i: nat, now: nat)
    requires i < |MockUsers|
    ensures Authenticate(MockUsers[i].user.email, MockUsers[i].password, now) ==
            Success(LoginResponse(MockUsers[i].user, MintToken(now)))
  {
    MockEmailsDistinct();
    var email := MockUsers[i].user.email;
    assert EmailIs(email)(MockUsers[i]);
    var found := FindAccount(email);
    var k :| 0 <= k < |MockUsers| && MockUsers[k] == found.value && EmailIs(email)(MockUsers[k]);
    assert k == i;
  }

  /** The table holds three accounts, a student, a teacher and an
      administrator, all with the password "senha123"; there is no guardian
      or secretary account. With `AuthenticateRow`, each of them logs in. */
  lemma MockAccounts()
    ensures |MockUsers| == 3
    ensures forall i :: 0 <= i < |MockUsers| ==> MockUsers[i].password == "senha123"
    ensures MockUsers[0].user.email == "aluno@escola.com" && MockUsers[0].user.role == Student
    ensures MockUsers[1].user.email == "professor@escola.com" && MockUsers[1].user.role == Teacher
    ensures MockUsers[2].user.email == "diretor@escola.com" && MockUsers[2].user.role == Admin
    ensures forall i :: 0 <= i < |MockUsers| ==> MockUsers[i].user.role !in {Guardian, Secretary}
  {
  }

  /** The student test account logs in as a student. */
  lemma StudentLogin(now: nat)
    ensures Authenticate("aluno@escola.com", "senha123", now).Success?
    ensures Authenticate("aluno@escola.com", "senha123", now).value.user.role == Student
  {
    AuthenticateRow(0, now);
  }

  /** The teacher test account logs in as a teacher. */
  lemma TeacherLogin(now: nat)
    ensures Authenticate("professor@escola.com", "senha123", now).Success?
    ensures Authenticate("professor@escola.com", "senha123", now).value.user.role == Teacher
  {
    AuthenticateRow(1, now);
  }

  /** The administrator test account logs in as an administrator. */
  lemma AdminLogin(now: nat)
    ensures Authenticate("diretor@escola.com", "senha123", now).Success?
    ensures Authenticate("diretor@escola.com", "senha123", now).value.user.role == Admin
  {
    AuthenticateRow(2, now);
  }

  /** A minted token is never empty, so a stored one always counts as a session. */
  lemma TokenNonEmpty(now: nat)
    ensures MintToken(now) != ""
    ensures TokenPrefix <= MintToken(now)
  {
  }

  /** After a successful login the token key holds the minted token, the user
      key decodes to the returned user, and no other key changed. */
  lemma LoginStoresSession(items: map<string, string>, email: string, password: string, now: nat)
    requires Authenticate(email, password, now).Success?
    ensures var r := Authenticate(email, password, now);
            var after := StoreAfterLogin(items, r);
            GetToken(after) == Some(r.value.token) && IsAuthenticated(after) &&
            GetCurrentUser(after) == Some(r.value.user) &&
            (forall k :: k != TokenKey && k != UserKey ==> GetItem(after, k) == GetItem(items, k))
  {
    var r := Authenticate(email, password, now);
    UserCodec.DecodeEncodeUser(r.value.user);
    assert r.value.token == MintToken(now) by { LoginSucceedsIff(email, password, now); }
    TokenNonEmpty(now);
    // the encoding of a user is never empty: it holds eleven separators
    assert UserCodec.EncodeUser(r.value.user) != "";
  }

  /** A failed login writes nothing: the previous session, if any, survives. */
  lemma FailedLoginKeepsSession(items: map<string, string>, email: string, password: string, now: nat)
    requires Authenticate(email, password, now).Failure?
    ensures StoreAfterLogin(items, Authenticate(email, password, now)) == items
  {
  }

  /** Logout removes exactly the two session keys and is idempotent. */
  lemma LogoutClearsSession(items: map<string, string>)
    ensures GetToken(StoreAfterLogout(items)) == None
    ensures !IsAuthenticated(StoreAfterLogout(items))
    ensures GetCurrentUser(StoreAfterLogout(items)) == None
    ensures forall k :: k != TokenKey && k != UserKey ==> GetItem(StoreAfterLogout(items), k) == GetItem(items, k)
    ensures StoreAfterLogout(StoreAfterLogout(items)) == StoreAfterLogout(items)
  {
  }

  /** The store holds a session exactly when it also holds a readable user. */
  predicate SessionConsistent(items: map<string, string>) {
    IsAuthenticated(items) <==> GetCurrentUser(items).Some?
  }

  /** Starting from empty storage, every sequence of logins and logouts keeps
      the token and the user in step: the empty store is consistent and both
      operations preserve consistency. */
  lemma SessionConsistencyPreserved(items: map<string, string>, email: string, password: string, now: nat)
    ensures SessionConsistent(map[])
    ensures SessionConsistent(items) ==> SessionConsistent(StoreAfterLogin(items, Authenticate(email, password, now)))
    ensures SessionConsistent(StoreAfterLogout(items))
  {
    var r := Authenticate(email, password, now);
    if r.Success? {
      LoginStoresSession(items, email, password, now);
    } else {
      FailedLoginKeepsSession(items, email, password, now);
    }
    LogoutClearsSession(items);
  }

  /** Storage written by something other than this client can hold a token
      without a readable user: the token check and the user read then disagree. */
  lemma TokenWithoutUser()
    ensures IsAuthenticated(map[TokenKey := "t"]) && GetCurrentUser(map[TokenKey := "t"]).None?
  {
  }
}
