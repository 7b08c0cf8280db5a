/** The client's session: a demonstration login that keeps its state in the provider and
    in the browser's `localStorage`, a logout, and the restore that runs when the provider
    mounts. */
module AuthContext {
  import opened Text

  /** The `userData` record kept in the session. */
  datatype User = User(email: string, name: string, role: string)

  /** A `localStorage` value: plain text, or the stored user record. */
  datatype StoredValue = Text(text: string) | UserRecord(user: User)

  datatype Credential = Credential(email: string, password: string)

  /** What `login` returns: `{ success: true }` or `{ success: false, error }`. */
  datatype LoginResult = LoginResult(success: bool, error: Option<string>)

  const AuthKey: string := "isAuthenticated"
  const UserKey: string := "user"
  const DefaultEmail: string := "professor@escola.com"
  const DefaultName: string := "Professor"
  const Role: string := "professor"
  const InvalidCredentials: string := "Credenciais inválidas"

  /** The fixed demonstration accounts. */
  const ValidCredentials: seq<Credential> :=
    [Credential("professor@escola.com", "professor123"), Credential("admin@escola.com", "admin123")]

  /** `validCredentials.find(...)`: the first entry with this email and password. */
  function FindCredential(creds: seq<Credential>, email: string, password: string): (r: Option<Credential>)
    ensures r.Some? <==> Credential(email, password) in creds
    ensures r.Some? ==> r.value == Credential(email, password)
  {
    if creds == [] then None
    else if creds[0].email == email && creds[0].password == password then Some(creds[0])
    else FindCredential(creds[1..], email, password)
  }

  /** `validUser || password`. The listed accounts all have a password, so matching one
      never lets in a login the password alone would refuse: the test passes exactly when
      the password is non-empty. */
  function Accepts(email: string, password: string): (ok: bool)
    ensures ok <==> password != ""
  {
    var validUser := FindCredential(ValidCredentials, email, password);
    assert validUser.Some? ==> Credential(email, password) in ValidCredentials;
    validUser.Some? || password != ""
  }

  /** `email?.split('@')[0] || 'Professor'`: the text before the first `@`, unless that is
      empty. */
  function NameFor(email: string): (name: string)
    ensures name != ""
    ensures email == "" || email[0] == '@' ==> name == DefaultName
    ensures email != "" && email[0] != '@' ==>
              && |name| <= |email| && name == email[..|name|] && '@' !in name
              && (|name| < |email| ==> email[|name|] == '@')
  {
    SplitFirstPiece(email, '@');
    var first := Split(email, '@')[0];
    if first != "" then first else DefaultName
  }

  /** `userData` of a successful login. */
  function ProfileFor(email: string): (u: User)
    ensures u.email == (if email != "" then email else DefaultEmail)
    ensures u.role == Role && u.name == NameFor(email)
  {
    User(if email != "" then email else DefaultEmail, NameFor(email), Role)
  }

  /** The user a restore adopts: only when the flag is exactly the text "true" and a user
      is stored. */
  function StoredSession(storage: map<string, StoredValue>): (u: Option<User>)
    ensures u.Some? <==> AuthKey in storage && storage[AuthKey] == Text("true")
                         && UserKey in storage && storage[UserKey].UserRecord?
    ensures u.Some? ==> u.value == storage[UserKey].user
  {
    if AuthKey in storage && storage[AuthKey] == Text("true") && UserKey in storage && storage[UserKey].UserRecord?
    then Some(storage[UserKey].user)
    else None
  }

  /** The storage a successful login leaves behind holds a session a restore adopts, with
      the same user. */
  lemma LoginThenRestore(storage: map<string, StoredValue>, u: User)
    ensures StoredSession(storage[AuthKey := Text("true")][UserKey := UserRecord(u)]) == Some(u)
  {
    assert AuthKey != UserKey;
  }

  /** After a logout a restore finds no session. */
  lemma LogoutThenRestore(storage: map<string, StoredValue>)
    ensures StoredSession(storage - {AuthKey, UserKey}) == None
  {
  }

  class Session {
    var isAuthenticated: bool
    var user: Option<User>
    var loading: bool
    var storage: map<string, StoredValue>    // `localStorage`

    /** The provider's initial state, over whatever the browser has stored. */
    constructor (storage: map<string, StoredValue>)
      ensures !isAuthenticated && user.None? && loading && this.storage == storage
    {
      isAuthenticated := false;
      user := None;
      loading := true;
      this.storage := storage;
    }

    /** The effect run on mount: adopt the stored session when there is one; loading ends
        either way. */
    method Restore()
      modifies this
      ensures !loading && storage == old(storage)
      ensures StoredSession(old(storage)).Some? ==> isAuthenticated && user == StoredSession(old(storage))
      ensures StoredSession(old(storage)).None? ==> isAuthenticated == old(isAuthenticated) && user == old(user)
    {
      var stored := StoredSession(storage);
      if stored.Some? {
        isAuthenticated := true;
        user := stored;
      }
      loading := false;
    }

    /** `login(email, password)`: any non-empty password is accepted. */
    method Login(email: string, password: string) returns (result: LoginResult)
      modifies this
      ensures result.success <==> password != ""
      ensures password != "" ==>
                && result == LoginResult(true, None)
                && isAuthenticated && user == Some(ProfileFor(email)) && loading == old(loading)
                && storage == old(storage)[AuthKey := Text("true")][UserKey := UserRecord(ProfileFor(email))]
      ensures password == "" ==> result == LoginResult(false, Some(InvalidCredentials)) && unchanged(this)
    {
      if Accepts(email, password) {
        var userData := ProfileFor(email);
        isAuthenticated := true;
        user := Some(userData);
        storage := storage[AuthKey := Text("true")][UserKey := UserRecord(userData)];
        return LoginResult(true, None);
      }
      result := LoginResult(false, Some(InvalidCredentials));
    }

    /** `logout()`: the session and both storage keys are cleared. */
    method Logout()
      modifies this
      ensures !isAuthenticated && user.None? && loading == old(loading)
      ensures storage == old(storage) - {AuthKey, UserKey}
    {
      isAuthenticated := false;
      user := None;
      storage := storage - {AuthKey};
      storage := storage - {UserKey};
    }
  }
}
