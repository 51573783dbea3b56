/** The user store of the auth module: how a decoded users-query result becomes a user or an
    error, which lookups ask for the password check, and the input of the create-user mutation.
    The database client, the query texts, the transactions and JSON decoding are outside the
    model: a lookup receives the decoded result as a sequence of records. */
module UserStore {
  import opened Wrappers

  /** One decoded record of a users query. `checkPwd` is the database's verdict on the given
      password; it is absent when the query did not ask for one. */
  datatype UserRecord = UserRecord(id: string, name: string, email: string, role: string, checkPwd: Option<bool>)

  /** The user handed to the auth layer. */
  datatype UserInfo = UserInfo(id: string, name: string, email: string, admin: bool, claims: map<string, string>)

  /** The two errors a lookup reports itself, each carrying the identifier it was asked for. */
  datatype LookupError = UserNotFound(key: string) | WrongPassword(key: string)

  /** The error text the lookup formats. */
  function Message(e: LookupError): string {
    match e
    case UserNotFound(key) => "user not found by " + key
    case WrongPassword(key) => "wrong password: " + key
  }

  /** The user built from a record: identity fields copied, `admin` for the role "admin", and
      the two claims email and role. */
  function UserInfoOf(u: UserRecord): (info: UserInfo)
    ensures info.id == u.id && info.name == u.name && info.email == u.email
    ensures info.admin <==> u.role == "admin"
    ensures info.claims.Keys == {"email", "role"}
    ensures info.claims["email"] == u.email && info.claims["role"] == u.role
  {
    UserInfo(u.id, u.name, u.email, u.role == "admin", map["email" := u.email, "role" := u.role])
  }

  /** Whether the password check rejects a record: only when it was requested and the database
      answered false; an absent answer passes. */
  predicate Rejected(u: UserRecord, checkPwd: bool) {
    checkPwd && u.checkPwd == Some(false)
  }

  /** `FindUser` after the query: no record is "not found"; otherwise only the first record
      decides, and it is either rejected by the password check or turned into the user. */
  function FindUser(users: seq<UserRecord>, userID: string, checkPwd: bool): (r: Result<UserInfo, LookupError>)
    ensures users == [] ==> r == Err(UserNotFound(userID))
    ensures r == Err(WrongPassword(userID)) <==> users != [] && checkPwd && users[0].checkPwd == Some(false)
    ensures r.Ok? <==> users != [] && !(checkPwd && users[0].checkPwd == Some(false))
    ensures r.Ok? ==> r.value == UserInfoOf(users[0])
  {
    if |users| == 0 then Err(UserNotFound(userID))
    else
      var user := users[0];
      if Rejected(user, checkPwd) then Err(WrongPassword(userID))
      else Ok(UserInfoOf(user))
  }

  /** Records after the first never change the outcome. */
  lemma FirstRecordWins(first: UserRecord, rest: seq<UserRecord>, userID: string, checkPwd: bool)
    ensures FindUser([first] + rest, userID, checkPwd) == FindUser([first], userID, checkPwd)
  {
  }

  /** Without the password check a lookup fails only when nothing is found. */
  lemma UncheckedLookupFailsOnlyWhenNotFound(users: seq<UserRecord>, userID: string)
    ensures FindUser(users, userID, false).Err? <==> users == []
  {
  }

  /** `ValidateCredentials(username, password)`: the users whose email, login or phone is the
      username, with the database's password verdict; this lookup requests the check. The
      password reaches only the query. */
  function ValidateCredentials(username: string, password: string, users: seq<UserRecord>): (r: Result<UserInfo, LookupError>)
    ensures users == [] ==> r == Err(UserNotFound(username))
    ensures r == Err(WrongPassword(username)) <==> users != [] && users[0].checkPwd == Some(false)
    ensures r.Ok? <==> users != [] && users[0].checkPwd != Some(false)
    ensures r.Ok? ==> r.value == UserInfoOf(users[0])
  {
    FindUser(users, username, true)
  }

  /** `FindUserByEmail(email)`: no password check, so it fails only when nothing is found. */
  function FindUserByEmail(email: string, users: seq<UserRecord>): (r: Result<UserInfo, LookupError>)
    ensures r.Err? <==> users == []
    ensures r.Err? ==> r.error == UserNotFound(email)
    ensures r.Ok? ==> r.value == UserInfoOf(users[0])
  {
    FindUser(users, email, false)
  }

  /** `FindUserByID(userID)`: no password check, so it fails only when nothing is found. */
  function FindUserByID(userID: string, users: seq<UserRecord>): (r: Result<UserInfo, LookupError>)
    ensures r.Err? <==> users == []
    ensures r.Err? ==> r.error == UserNotFound(userID)
    ensures r.Ok? ==> r.value == UserInfoOf(users[0])
  {
    FindUser(users, userID, false)
  }

  /** The account data the auth layer passes to `CreateUser` (the fields the store reads). */
  datatype UserData = UserData(name: string, firstName: string, lastName: string, email: string, nickName: string)

  /** The record the store writes for a new user. */
  datatype CreateUserData = CreateUserData(
    name: string, firstName: string, lastName: string, email: string, avatar: string, location: string)

  /** The record built from the account: four fields copied; avatar and location keep their
      zero value, the empty string, and the nickname is not used. */
  function NewUserData(account: UserData): (data: CreateUserData)
    ensures data.name == account.name && data.firstName == account.firstName
    ensures data.lastName == account.lastName && data.email == account.email
    ensures data.avatar == "" && data.location == ""
  {
    CreateUserData(account.name, account.firstName, account.lastName, account.email, "", "")
  }

  /** The six JSON keys of the record, as its field tags name them. */
  const InputKeys: set<string> := {"name", "first_name", "last_name", "email", "avatar", "location"}

  /** Reads a mutation input back into the record its field tags describe; `None` when a key
      is missing. */
  function DecodeInput(input: map<string, string>): Option<CreateUserData> {
    if InputKeys <= input.Keys then
      Some(CreateUserData(input["name"], input["first_name"], input["last_name"], input["email"],
                          input["avatar"], input["location"]))
    else None
  }

  /** The mutation input of `CreateUser`, filled key by key from the record. */
  method CreateUserInput(account: UserData) returns (input: map<string, string>)
    ensures input.Keys == InputKeys
    ensures input["avatar"] == "" && input["location"] == ""
    ensures DecodeInput(input) == Some(NewUserData(account))
  {
    var data := NewUserData(account);
    input := map[];
    input := input["name" := data.name];
    input := input["first_name" := data.firstName];
    input := input["last_name" := data.lastName];
    input := input["email" := data.email];
    input := input["avatar" := data.avatar];
    input := input["location" := data.location];
  }

  /** `CreateUser(account)`: builds the mutation input, and after the mutation returns the
      lookup of the new user by email; `usersByEmail` is that lookup's decoded result. */
  method CreateUser(account: UserData, usersByEmail: seq<UserRecord>)
    returns (input: map<string, string>, r: Result<UserInfo, LookupError>)
    ensures input.Keys == InputKeys
    ensures DecodeInput(input) == Some(NewUserData(account))
    ensures r == FindUserByEmail(account.email, usersByEmail)
  {
    input := CreateUserInput(account);
    r := FindUserByEmail(NewUserData(account).email, usersByEmail);
  }
}
