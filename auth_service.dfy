/** backend/services/auth_service.py: registration, login, logout and token
    lookup over the user table and the process-wide session map. Random
    tokens are supplied by the caller, fresh for the current map. */
module AuthService {
  import opened Common
  import opened UserModel
  import Validators

  const UsernameTakenMessage := "Username already exists"
  const RegisteredMessage := "User registered successfully"
  const InvalidCredentialsMessage := "Invalid username or password"
  const LoginMessage := "Login successful"
  const LogoutMessage := "Logout successful"
  const InvalidSessionMessage := "Invalid or expired session"
  const UserNotFoundMessage := "User not found"

  /** The `(user_dict, token, message, status_code)` tuple of register and login. */
  datatype AuthResult = AuthResult(user: Option<UserView>, token: Option<string>, message: string, status: int)

  /** The `(user_dict, error_message, status_code)` tuple of `get_current_user`. */
  datatype CurrentUserResult = CurrentUserResult(user: Option<UserView>, error: Option<string>, status: int)

  /** `_get_user_id_from_token`: `dict.get` on the session map. */
  function LookupSession(sessions: map<string, int>, token: string): (r: Option<int>)
    ensures r.Some? <==> token in sessions
    ensures r.Some? ==> r.value == sessions[token]
  {
    if token in sessions then Some(sessions[token]) else None
  }

  class AuthService {
    var users: map<int, User>
    var nextUserId: int
    var sessions: map<string, int>

    /** Users are keyed by id below the counter, usernames are unique, and
        every session names a database id (ids start at 1). */
    ghost predicate Valid()
      reads this
    {
      nextUserId >= 1 &&
      (forall k :: k in users ==> 1 <= k < nextUserId && users[k].id == k) &&
      (forall k, k' :: k in users && k' in users && users[k].username == users[k'].username ==> k == k') &&
      (forall t :: t in sessions ==> sessions[t] >= 1)
    }

    constructor ()
      ensures Valid() && users == map[] && sessions == map[] && nextUserId == 1
    {
      users := map[];
      nextUserId := 1;
      sessions := map[];
    }

    /** `User.query.filter_by(username=...).first()` finds a row. */
    predicate UsernameTaken(username: string): (taken: bool)
      reads this
      ensures taken <==> username in (set k | k in users :: users[k].username)
    {
      exists k :: k in users && users[k].username == username
    }

    /** `_create_session`: map the fresh token to the user. */
    method CreateSession(userId: int, token: string) returns (t: string)
      requires token !in sessions
      modifies this`sessions
      ensures t == token
      ensures sessions == old(sessions)[token := userId]
      ensures ActiveSessionsCount() == old(ActiveSessionsCount()) + 1
    {
      sessions := sessions[token := userId];
      t := token;
    }

    /** `register_user`. */
    method RegisterUser(username: Option<string>, password: Option<string>, token: string)
      returns (r: AuthResult)
      requires Valid() && token !in sessions
      modifies this
      ensures Valid()
      ensures Validators.ValidateRegistration(username, password).Fail? ==>
        r == AuthResult(None, None, Validators.ValidateRegistration(username, password).message, 400)
      ensures (Validators.ValidateRegistration(username, password).Pass? &&
               old(UsernameTaken(username.value))) ==>
        r == AuthResult(None, None, UsernameTakenMessage, 409)
      ensures r.status != 201 ==> users == old(users) && sessions == old(sessions) && nextUserId == old(nextUserId)
      ensures r.status == 201 <==>
        Validators.ValidateRegistration(username, password).Pass? && !old(UsernameTaken(username.value))
      ensures r.status == 201 ==>
        var id := old(nextUserId);
        id !in old(users) &&
        users == old(users)[id := User(id, username.value, GeneratePasswordHash(password.value))] &&
        sessions == old(sessions)[token := id] &&
        r == AuthResult(Some(UserView(id, username.value)), Some(token), RegisteredMessage, 201) &&
        GetCurrentUser(token) == CurrentUserResult(Some(UserView(id, username.value)), None, 200)
    {
      var check := Validators.ValidateRegistration(username, password);
      if check.Fail? {
        return AuthResult(None, None, check.message, 400);
      }
      if exists k :: k in users && users[k].username == username.value {
        return AuthResult(None, None, UsernameTakenMessage, 409);
      }
      var id := nextUserId;
      var user := User(id, username.value, GeneratePasswordHash(password.value));
      users := users[id := user];
      nextUserId := nextUserId + 1;
      var t := CreateSession(id, token);
      r := AuthResult(Some(ToDict(user)), Some(t), RegisteredMessage, 201);
    }

    /** `login_user`. An unknown name and a wrong password are indistinguishable. */
    method LoginUser(username: Option<string>, password: Option<string>, token: string)
      returns (r: AuthResult)
      requires Valid() && token !in sessions
      modifies this`sessions
      ensures Valid()
      ensures !Validators.Given(username) || !Validators.Given(password) ==>
        r == AuthResult(None, None, Validators.RequiredMessage, 400)
      ensures (Validators.Given(username) && Validators.Given(password) &&
               !exists k :: k in users && users[k].username == username.value &&
                            CheckPasswordHash(users[k].passwordHash, password.value)) ==>
        r == AuthResult(None, None, InvalidCredentialsMessage, 401)
      ensures r.status != 200 ==> sessions == old(sessions)
      ensures forall t :: t in old(sessions) ==> t in sessions && sessions[t] == old(sessions)[t]
      ensures forall k :: (Validators.Given(username) && Validators.Given(password) &&
                           k in users && users[k].username == username.value &&
                           CheckPasswordHash(users[k].passwordHash, password.value)) ==>
        r == AuthResult(Some(ToDict(users[k])), Some(token), LoginMessage, 200) &&
        sessions == old(sessions)[token := k]
    {
      if !Validators.Given(username) || !Validators.Given(password) {
        return AuthResult(None, None, Validators.RequiredMessage, 400);
      }
      if !exists k :: k in users && users[k].username == username.value {
        return AuthResult(None, None, InvalidCredentialsMessage, 401);
      }
      var k :| k in users && users[k].username == username.value;
      if !CheckPasswordHash(users[k].passwordHash, password.value) {
        return AuthResult(None, None, InvalidCredentialsMessage, 401);
      }
      var t := CreateSession(k, token);
      r := AuthResult(Some(ToDict(users[k])), Some(t), LoginMessage, 200);
    }

    /** `logout_user`: drop the token if present; always succeeds. */
    method LogoutUser(token: string) returns (success: bool, message: string, status: int)
      requires Valid()
      modifies this`sessions
      ensures Valid()
      ensures sessions == old(sessions) - {token}
      ensures success && message == LogoutMessage && status == 200
    {
      sessions := sessions - {token};
      success, message, status := true, LogoutMessage, 200;
    }

    /** `get_current_user`: 401 for an unknown (or falsy) user id, 404 for an
        id no longer in the table, the public view otherwise. */
    function GetCurrentUser(token: string): (r: CurrentUserResult)
      reads this
      ensures (token !in sessions || sessions[token] == 0) ==>
        r == CurrentUserResult(None, Some(InvalidSessionMessage), 401)
      ensures (token in sessions && sessions[token] != 0 && sessions[token] !in users) ==>
        r == CurrentUserResult(None, Some(UserNotFoundMessage), 404)
      ensures r.status == 200 <==> token in sessions && sessions[token] != 0 && sessions[token] in users
      ensures r.status == 200 ==>
        r.error.None? && r.user == Some(ToDict(users[sessions[token]]))
    {
      var id := LookupSession(sessions, token);
      if id.None? || id.value == 0 then CurrentUserResult(None, Some(InvalidSessionMessage), 401)
      else if id.value !in users then CurrentUserResult(None, Some(UserNotFoundMessage), 404)
      else CurrentUserResult(Some(ToDict(users[id.value])), None, 200)
    }

    /** `verify_token`: exactly the session map's entry, or none. */
    function VerifyToken(token: string): (r: Option<int>)
      reads this
      ensures r.Some? <==> token in sessions
      ensures r.Some? ==> r.value == sessions[token]
    {
      LookupSession(sessions, token)
    }

    /** `get_active_sessions_count`. */
    function ActiveSessionsCount(): (n: nat)
      reads this
      ensures n == |sessions.Keys|
    {
      |sessions|
    }
  }

  /** Logging out twice is logging out once. */
  lemma LogoutIdempotent(sessions: map<string, int>, token: string)
    ensures (sessions - {token}) - {token} == sessions - {token}
  {
  }

  /** Logging out leaves every other session as it was. */
  lemma LogoutKeepsOthers(sessions: map<string, int>, token: string, other: string)
    requires other != token
    ensures LookupSession(sessions - {token}, other) == LookupSession(sessions, other)
  {
  }
}
