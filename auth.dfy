/**
 * The authentication manager: a users table and a sessions table, both
 * persisted as JSON files by the application and modelled here as the
 * manager's two map fields. Passwords are stored as the hex digest of a
 * hash function the manager is built with; the clock is a parameter of
 * every operation that reads it, a count of seconds.
 */
module Auth {
  import opened Common
  import opened Text

  /** One entry of the users table. */
  datatype User = User(
    password: string,
    role: string,
    fullName: string,
    email: string,
    createdAt: nat,
    lastLogin: Option<nat>)

  /** What a successful login hands out and a session carries. */
  datatype UserData = UserData(
    username: string,
    role: string,
    fullName: string,
    email: string,
    lastLogin: Option<nat>)

  /** One entry of the sessions table. */
  datatype Session = Session(userData: UserData, createdAt: nat, expiresAt: nat)

  type Users = map<string, User>
  type Sessions = map<string, Session>

  /** A session lives eight hours. */
  const SessionDuration: nat := 8 * 3600

  /** The user exists and `password` hashes to the stored digest. */
  predicate PasswordMatches(users: Users, hash: string -> string, username: string, password: string)
  {
    username in users && users[username].password == hash(password)
  }

  /** The user data returned for a user record. */
  function DataOf(username: string, user: User): UserData
  {
    UserData(username, user.role, user.fullName, user.email, user.lastLogin)
  }

  /** The users table written when no users file exists yet. */
  function DefaultUsers(hash: string -> string, now: nat): (users: Users)
    ensures users.Keys == {"admin", "hr_manager"}
    ensures PasswordMatches(users, hash, "admin", "fcg@2024")
    ensures PasswordMatches(users, hash, "hr_manager", "hr@fcg123")
    ensures forall u :: u in users ==> users[u].role == u && users[u].createdAt == now && users[u].lastLogin.None?
  {
    map[
      "admin" := User(hash("fcg@2024"), "admin", "FCG Administrator", "admin@fourcornersgroup.com", now, None),
      "hr_manager" := User(hash("hr@fcg123"), "hr_manager", "HR Manager", "hr@fourcornersgroup.com", now, None)
    ]
  }

  // ------------------------------------------------- the operations as values

  /** The result of a login attempt and the users table after it. */
  datatype Login = Login(data: Option<UserData>, users: Users)

  /**
   * `authenticate_user`: succeeds exactly when the credentials match; a
   * success stamps the user's last login and changes nothing else.
   */
  function LoginResult(users: Users, hash: string -> string, username: string, password: string, now: nat): (r: Login)
    ensures r.data.Some? <==> PasswordMatches(users, hash, username, password)
    ensures r.users.Keys == users.Keys
    ensures forall u :: u in users && u != username ==> r.users[u] == users[u]
    ensures r.data.Some? ==>
      r.users[username] == users[username].(lastLogin := Some(now))
      && r.data.value == DataOf(username, r.users[username])
      && r.data.value.lastLogin == Some(now)
    ensures r.data.None? ==> r.users == users
  {
    if PasswordMatches(users, hash, username, password) then
      var user := users[username].(lastLogin := Some(now));
      Login(Some(DataOf(username, user)), users[username := user])
    else
      Login(None, users)
  }

  /** The session id: the digest of the username followed by the time. */
  function SessionId(hash: string -> string, username: string, now: nat): string
  {
    hash(username + NatToString(now))
  }

  /** `create_session`: the new session expires eight hours from now; any other session is kept. */
  function SessionOpened(sessions: Sessions, id: string, data: UserData, now: nat): (r: Sessions)
    ensures r.Keys == sessions.Keys + {id}
    ensures r[id].userData == data && r[id].createdAt == now && r[id].expiresAt == now + SessionDuration
    ensures forall k :: k in sessions && k != id ==> r[k] == sessions[k]
  {
    sessions[id := Session(data, now, now + SessionDuration)]
  }

  /** The result of a session check and the sessions table after it. */
  datatype Check = Check(data: Option<UserData>, sessions: Sessions)

  /**
   * `validate_session`: a session is valid strictly before its expiry; an
   * expired session is deleted, and nothing else is ever changed.
   */
  function SessionChecked(sessions: Sessions, id: string, now: nat): (r: Check)
    ensures r.data.Some? <==> id in sessions && now < sessions[id].expiresAt
    ensures r.data.Some? ==> r.data.value == sessions[id].userData
    ensures id in sessions && sessions[id].expiresAt <= now ==> r.sessions.Keys == sessions.Keys - {id}
    ensures id in sessions && now < sessions[id].expiresAt ==> r.sessions == sessions
    ensures id !in sessions ==> r.sessions == sessions
    ensures forall k :: k in r.sessions ==> k in sessions && r.sessions[k] == sessions[k]
  {
    if id in sessions then
      if now < sessions[id].expiresAt then Check(Some(sessions[id].userData), sessions)
      else Check(None, sessions - {id})
    else Check(None, sessions)
  }

  /** `logout_user`: the session is gone and every other one is kept. */
  function LoggedOut(sessions: Sessions, id: string): (r: Sessions)
    ensures r.Keys == sessions.Keys - {id}
    ensures forall k :: k in r ==> r[k] == sessions[k]
  {
    if id in sessions then sessions - {id} else sessions
  }

  /**
   * `change_password`: succeeds exactly when the old password matches, and
   * then replaces that user's digest and nothing else.
   */
  function PasswordChanged(users: Users, hash: string -> string, username: string, oldPassword: string, newPassword: string): (r: (bool, Users))
    ensures r.0 <==> PasswordMatches(users, hash, username, oldPassword)
    ensures r.1.Keys == users.Keys
    ensures r.0 ==> r.1[username] == users[username].(password := hash(newPassword))
    ensures forall u :: u in users && (u != username || !r.0) ==> r.1[u] == users[u]
  {
    if PasswordMatches(users, hash, username, oldPassword) then
      (true, users[username := users[username].(password := hash(newPassword))])
    else
      (false, users)
  }

  /**
   * `add_user`: succeeds exactly when the username is new, and then adds
   * that one user, never logged in; an existing user is never overwritten.
   */
  function UserAdded(users: Users, hash: string -> string, username: string, password: string,
                     role: string, fullName: string, email: string, now: nat): (r: (bool, Users))
    ensures r.0 <==> username !in users
    ensures r.0 ==>
      r.1.Keys == users.Keys + {username}
      && r.1[username] == User(hash(password), role, fullName, email, now, None)
    ensures forall u :: u in users ==> u in r.1 && r.1[u] == users[u]
    ensures !r.0 ==> r.1 == users
  {
    if username !in users then
      (true, users[username := User(hash(password), role, fullName, email, now, None)])
    else
      (false, users)
  }

  // ------------------------------------------------ properties across calls

  /** A login never changes anyone's credentials. */
  lemma LoginKeepsCredentials(users: Users, hash: string -> string, username: string, password: string, now: nat,
                              other: string, attempt: string)
    ensures PasswordMatches(LoginResult(users, hash, username, password, now).users, hash, other, attempt)
        <==> PasswordMatches(users, hash, other, attempt)
  {
    var r := LoginResult(users, hash, username, password, now);
    if other in users && other == username && r.data.Some? {
      assert r.users[other].password == users[other].password;
    }
  }

  /**
   * After a password change the new password logs in, and the old one no
   * longer does unless the two have the same digest.
   */
  lemma ChangedPasswordLogsIn(users: Users, hash: string -> string, username: string,
                              oldPassword: string, newPassword: string, now: nat)
    requires PasswordChanged(users, hash, username, oldPassword, newPassword).0
    ensures LoginResult(PasswordChanged(users, hash, username, oldPassword, newPassword).1,
                        hash, username, newPassword, now).data.Some?
    ensures hash(oldPassword) != hash(newPassword) ==>
      LoginResult(PasswordChanged(users, hash, username, oldPassword, newPassword).1,
                  hash, username, oldPassword, now).data.None?
  {
    var after := PasswordChanged(users, hash, username, oldPassword, newPassword).1;
    assert after[username].password == hash(newPassword);
  }

  /** A newly added user can log in with its password and gets the role it was given. */
  lemma AddedUserLogsIn(users: Users, hash: string -> string, username: string, password: string,
                        role: string, fullName: string, email: string, now: nat, later: nat)
    requires username !in users
    ensures LoginResult(UserAdded(users, hash, username, password, role, fullName, email, now).1,
                        hash, username, password, later).data
      == Some(UserData(username, role, fullName, email, Some(later)))
  {
    var after := UserAdded(users, hash, username, password, role, fullName, email, now).1;
    assert after[username] == User(hash(password), role, fullName, email, now, None);
  }

  /** Adding the same username twice: the second attempt fails and changes nothing. */
  lemma AddUserTwice(users: Users, hash: string -> string, username: string, password: string,
                     role: string, fullName: string, email: string, now: nat,
                     password2: string, role2: string, fullName2: string, email2: string, now2: nat)
    ensures var once := UserAdded(users, hash, username, password, role, fullName, email, now).1;
      UserAdded(once, hash, username, password2, role2, fullName2, email2, now2) == (false, once)
  {
    var once := UserAdded(users, hash, username, password, role, fullName, email, now).1;
    assert username in once;
  }

  /**
   * A fresh session is valid for exactly eight hours: before then it yields
   * the user data it was opened with, from then on it is refused and removed.
   */
  lemma SessionLifetime(sessions: Sessions, id: string, data: UserData, start: nat, now: nat)
    ensures var s := SessionOpened(sessions, id, data, start);
      SessionChecked(s, id, now).data == (if now < start + SessionDuration then Some(data) else None)
    ensures now >= start + SessionDuration ==>
      id !in SessionChecked(SessionOpened(sessions, id, data, start), id, now).sessions
  {
    var s := SessionOpened(sessions, id, data, start);
    assert id in s && s[id].expiresAt == start + SessionDuration;
  }

  /** Checking a session twice at the same time gives the same answer and the same table. */
  lemma SessionCheckIdempotent(sessions: Sessions, id: string, now: nat)
    ensures var first := SessionChecked(sessions, id, now);
      SessionChecked(first.sessions, id, now) == first
  {
    var first := SessionChecked(sessions, id, now);
    if id in sessions && sessions[id].expiresAt <= now {
      assert id !in first.sessions;
    }
  }

  /** After a logout the session is refused, and logging out again changes nothing. */
  lemma LogoutEndsSession(sessions: Sessions, id: string, now: nat)
    ensures SessionChecked(LoggedOut(sessions, id), id, now) == Check(None, LoggedOut(sessions, id))
    ensures LoggedOut(LoggedOut(sessions, id), id) == LoggedOut(sessions, id)
  {
    assert id !in LoggedOut(sessions, id);
  }

  // --------------------------------------------------------------- the manager

  /**
   * `AuthManager`: `users` and `sessions` stand for the contents of the
   * users and sessions files, re-read and re-written by every operation.
   */
  class AuthManager {
    const hash: string -> string
    var users: Users
    var sessions: Sessions

    /**
     * `__init__` / `ensure_data_files`: the stored tables when the files
     * exist, the two default users and no sessions when they do not.
     */
    constructor (hash: string -> string, storedUsers: Option<Users>, storedSessions: Option<Sessions>, now: nat)
      ensures this.hash == hash
      ensures users == (if storedUsers.Some? then storedUsers.value else DefaultUsers(hash, now))
      ensures sessions == (if storedSessions.Some? then storedSessions.value else map[])
    {
      this.hash := hash;
      if storedUsers.Some? {
        users := storedUsers.value;
      } else {
        users := DefaultUsers(hash, now);
      }
      if storedSessions.Some? {
        sessions := storedSessions.value;
      } else {
        sessions := map[];
      }
    }

    /** `authenticate_user`. */
    method AuthenticateUser(username: string, password: string, now: nat) returns (data: Option<UserData>)
      modifies this
      ensures Login(data, users) == LoginResult(old(users), hash, username, password, now)
      ensures sessions == old(sessions)
    {
      data := None;
      if username in users {
        var user := users[username];
        if user.password == hash(password) {
          user := user.(lastLogin := Some(now));
          users := users[username := user];
          data := Some(DataOf(username, user));
        }
      }
    }

    /** `create_session`. */
    method CreateSession(userData: UserData, now: nat) returns (id: string)
      modifies this
      ensures id == SessionId(hash, userData.username, now)
      ensures sessions == SessionOpened(old(sessions), id, userData, now)
      ensures users == old(users)
    {
      id := SessionId(hash, userData.username, now);
      sessions := sessions[id := Session(userData, now, now + SessionDuration)];
    }

    /** `validate_session`. */
    method ValidateSession(id: string, now: nat) returns (data: Option<UserData>)
      modifies this
      ensures Check(data, sessions) == SessionChecked(old(sessions), id, now)
      ensures users == old(users)
    {
      data := None;
      if id in sessions {
        var session := sessions[id];
        if now < session.expiresAt {
          data := Some(session.userData);
        } else {
          sessions := sessions - {id};
        }
      }
    }

    /** `logout_user`. */
    method LogoutUser(id: string)
      modifies this
      ensures sessions == LoggedOut(old(sessions), id)
      ensures users == old(users)
    {
      if id in sessions {
        sessions := sessions - {id};
      }
    }

    /** `change_password`. */
    method ChangePassword(username: string, oldPassword: string, newPassword: string) returns (ok: bool)
      modifies this
      ensures (ok, users) == PasswordChanged(old(users), hash, username, oldPassword, newPassword)
      ensures sessions == old(sessions)
    {
      ok := false;
      if username in users {
        var user := users[username];
        if user.password == hash(oldPassword) {
          user := user.(password := hash(newPassword));
          users := users[username := user];
          ok := true;
        }
      }
    }

    /** `add_user`. */
    method AddUser(username: string, password: string, role: string, fullName: string, email: string, now: nat)
      returns (ok: bool)
      modifies this
      ensures (ok, users) == UserAdded(old(users), hash, username, password, role, fullName, email, now)
      ensures sessions == old(sessions)
    {
      ok := false;
      if username !in users {
        users := users[username := User(hash(password), role, fullName, email, now, None)];
        ok := true;
      }
    }
  }
}
